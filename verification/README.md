# AgroShare proximity and listing logic, modelled in Dafny

AgroShare is a peer-to-peer farm-equipment rental site. Most of it is markup over a hosted
store. This project models the few pieces of it that have behaviour worth stating:

- **Route request** (`src/services/openRouteService.ts`). `fetchRoute` returns early when no
  OpenRouteService key is configured. It writes both latitude-first points into the query
  longitude-first. Every failure becomes `null`.
- **Listing detail view** (`src/components/MachineryDetail.tsx`).
  - The image gallery rotates by one on each press of the next button.
  - A listing without a location is placed at a fixed default.
  - The route effect converts the provider's longitude-first path for the map. It frames the
    map around the path and both endpoints with 50px padding, but only when a map is
    attached and the path is not empty. The map markup is commented out in the shipped component (see Left out).
- **Seller profile** (`src/pages/SellerProfile.tsx`).
  - `loadSellerData` has a demo short-circuit and reads the seller card from the first
    listing.
  - It keeps only the signed-in renter's requests whose listing belongs to the seller.
  - Two effects choose a default listing and centre the map on it.
- **Home page** (`src/pages/Home.tsx`). The search placeholder types and deletes five phrases
  in turn, one character per tick. The page lists the built-in listings followed by the
  fetched ones.

Modules: `Wrappers` (Option), `Geo` (points, the swap between conventions, bounding boxes),
`Records` (store rows and listing records), then one module per source file:
`OpenRouteService`, `MachineryDetail`, `SellerProfile`, `Home`.

Pure code is modelled as functions and lemmas. Code that updates React state is modelled as a
class per view (`DetailView`, `SellerProfileView`, `HomePage`). Each class method is proved to
leave the state a specification function describes (`AfterRoute`, `AfterLoad`, `NextTyping`,
`AfterPause`, `DefaultSelection`, `CentreFor`). The properties are proved about those functions.

External effects are inputs:

- The host's `fetch` is a function parameter from the query to a transport outcome.
- The seller page's store answers are `QueryResult` values: the call threw, or it returned data that may be `null`.
- The home page's listings answer is an `Option`: `None` for an error response, otherwise the rows.
- Geolocation success, map load/unmount, the map script loading and both timers firing are
  methods the environment calls.
- Number-to-text rendering in the price label is a `show` parameter.
- `fetch` receives the structured request: the key and the two longitude-first points.

## Model

| member | source | states |
|---|---|---|
| `OpenRouteService.KeyConfigured` | src/services/openRouteService.ts:3-4 | An unset key and the empty string both count as missing, as JavaScript falsiness does; any non-empty key is configured |
| `OpenRouteService.Request` | src/services/openRouteService.ts:10 | A request exists exactly when the key is configured. It carries the key, and each point, written longitude-first, denotes the caller's latitude-first point |
| `OpenRouteService.Outcome` | src/services/openRouteService.ts:12-21 | A value exactly for an ok response whose body parsed, and it is that body |
| `OpenRouteService.FetchRoute` | src/services/openRouteService.ts:2-22 | A value is returned exactly when a key is configured and the request for the swapped points got an ok response whose body parsed, and it is that body; without a key the result is `null` |
| `OpenRouteService.MissingKeyIssuesNoRequest` | src/services/openRouteService.ts:3-7 | Without a key (unset or empty) no request is built and the result is `null` whatever `fetch` would do |
| `OpenRouteService.QueryIsLongitudeFirst` | src/services/openRouteService.ts:10 | Given the latitude-first arrays the detail view passes, the query carries `lng,lat` for both points, and the provider reads back exactly the renter's and the listing's positions |
| `OpenRouteService.FailuresBecomeNull` | src/services/openRouteService.ts:12-21 | Network errors, non-ok responses and unparsable bodies all give `null`; nothing is thrown to the caller |
| `OpenRouteService.OkBodyReturned` | src/services/openRouteService.ts:16-17 | An ok response's parsed body is returned unchanged |
| `Geo.Swap` | src/services/openRouteService.ts:10 | The swapped array read longitude-first is the point the original denotes latitude-first, and the other way round |
| `Geo.SwapInvolutive` | src/services/openRouteService.ts:10 | Swapping a pair twice gives it back |
| `Geo.SwapChangesConvention` | src/components/MachineryDetail.tsx:201-214 | A swapped latitude-first array, read longitude-first, is the same point |
| `Geo.Extend` | src/components/MachineryDetail.tsx:219-222 | `bounds.extend(p)` holds `p` and everything the box held before; an empty box becomes the single point |
| `Geo.BoxOf` | src/components/MachineryDetail.tsx:219-222 | The accumulated box exists exactly when there are points, and contains every point |
| `Geo.BoxOfIsTight` | src/components/MachineryDetail.tsx:219-222 | Each side of the accumulated box is attained by one of the points |
| `Geo.BoxOfIsSmallest` | src/components/MachineryDetail.tsx:219-222 | Any box containing all the points encloses the accumulated box |
| `MachineryDetail.InitialGallery` | src/components/MachineryDetail.tsx:145 | The gallery is `machine.gallery` when present (even if empty), otherwise three copies of `machine.image` |
| `MachineryDetail.RotatedAsWritten` | src/components/MachineryDetail.tsx:147-152 | The rotation as written keeps the length of a non-empty gallery with the first image moved last, and turns an empty gallery into `[undefined]` |
| `MachineryDetail.EmptyGalleryGainsUndefined` | src/components/MachineryDetail.tsx:149-150 | Rotating an empty gallery as written yields one `undefined` image |
| `MachineryDetail.Rotated` | src/components/MachineryDetail.tsx:147-152 | The next-image rotation keeps the length, shifts every image one place forward and puts the first one last |
| `MachineryDetail.RotationKeepsImages` | src/components/MachineryDetail.tsx:148-151 | Rotation keeps the multiset of images |
| `MachineryDetail.RotationsAgreeWhenNonEmpty` | src/components/MachineryDetail.tsx:148-151 | On every non-empty gallery the written and the intended rotation agree |
| `MachineryDetail.RotatedTimesSplits` | src/components/MachineryDetail.tsx:147-152 | After `n` presses, for `n` up to the gallery size, the gallery is `g[n..] + g[..n]` |
| `MachineryDetail.FullCycleRestoresGallery` | src/components/MachineryDetail.tsx:147-152 | Pressing next as many times as there are images restores the original order |
| `MachineryDetail.MachineryLocation` | src/components/MachineryDetail.tsx:165 | The listing's location is its `[lat, lng]` array read latitude-first, or `(20.0470, 73.8520)` when absent |
| `MachineryDetail.PathOf` | src/components/MachineryDetail.tsx:211-214 | The path has one point per provider coordinate, in order, each read longitude-first |
| `MachineryDetail.PathRoundTrip` | src/components/MachineryDetail.tsx:208-214 | Writing each path point back longitude-first gives the provider's coordinates exactly |
| `MachineryDetail.RouteFrom` | src/components/MachineryDetail.tsx:206-228 | A path is found exactly when the answer is non-null, has at least one feature and that feature has a geometry; it is the first feature's converted coordinates; a null answer or no features is the "no route" case |
| `MachineryDetail.AfterRoute` | src/components/MachineryDetail.tsx:206-228 | Only a found route changes state: it replaces the path, and exactly one `fitBounds` call is added iff the map is attached and the path is non-empty; earlier calls are kept |
| `MachineryDetail.FramingCoversRoute` | src/components/MachineryDetail.tsx:218-223 | A new framing has 50px padding on all four sides, contains every path point, the renter and the listing, and is the smallest box that does |
| `MachineryDetail.FramingBox` | src/components/MachineryDetail.tsx:219-222 | The `forEach` loop and the two `extend` calls compute the accumulated box of the path followed by the renter and the listing |
| `MachineryDetail.DetailView.constructor` | src/components/MachineryDetail.tsx:145-176 | A mounted view starts with the initial gallery, the listing's location, no renter position, no route, no map and no framing |
| `MachineryDetail.DetailView.NextImage` | src/components/MachineryDetail.tsx:147-152 | The gallery is rotated by one and nothing else changes |
| `MachineryDetail.DetailView.ScriptLoaded` | src/components/MachineryDetail.tsx:155-158 | The map script is marked loaded |
| `MachineryDetail.DetailView.MapLoaded` | src/components/MachineryDetail.tsx:170-172 | The map handle is set |
| `MachineryDetail.DetailView.MapUnmounted` | src/components/MachineryDetail.tsx:174-176 | The map handle is cleared |
| `MachineryDetail.DetailView.PositionReceived` | src/components/MachineryDetail.tsx:179-193 | A geolocation success records the renter's position |
| `MachineryDetail.DetailView.ApplyRoute` | src/components/MachineryDetail.tsx:204-231 | The route path and framing calls become exactly what `AfterRoute` gives for the answer |
| `MachineryDetail.DetailView.RouteEffect` | src/components/MachineryDetail.tsx:196-238 | Nothing happens until the renter's position is known and the map script is loaded; then the route from the renter to the listing is fetched and applied |
| `SellerProfile.BelongsToSeller` | src/pages/SellerProfile.tsx:216 | A request without a joined listing, or whose listing has no owner, never belongs; otherwise it belongs exactly when the owner id is the seller id |
| `SellerProfile.TripsWithSeller` | src/pages/SellerProfile.tsx:216 | The trips are exactly the requests whose joined listing exists and is owned by the seller, as a subsequence in original order; requests with a missing join are dropped |
| `SellerProfile.TripsOfConcatenation` | src/pages/SellerProfile.tsx:216 | Filtering a concatenation is the concatenation of the filtered parts |
| `SellerProfile.TripsIdempotent` | src/pages/SellerProfile.tsx:216 | Filtering twice is filtering once |
| `SellerProfile.WithProducts` | src/pages/SellerProfile.tsx:191-203 | `null` or empty rows leave the page unchanged. Otherwise the listings become the rows, and the card is read from the first row's `users` join when present and kept when not. Trips and `loading` are untouched |
| `SellerProfile.AfterLoad` | src/pages/SellerProfile.tsx:146-226 | Without a seller id nothing changes and nothing is asked. With one, `loading` always ends false. No query is issued exactly for a missing or demo id. Otherwise the first query is the owner's listings, and the listings stay as they were when that query threw, returned `null` or returned no rows. The requests query follows, for the signed-in user, exactly when the listings query did not throw and a user is signed in. There are never more than two queries |
| `SellerProfile.DemoSellerSkipsStore` | src/pages/SellerProfile.tsx:151-171 | A `demo-owner-` id sets the fixed demo seller and exactly one demo listing, clears `loading`, leaves the trips alone and issues no store query |
| `SellerProfile.NoUserNoRequestQuery` | src/pages/SellerProfile.tsx:207-219 | Without a signed-in user no request query is issued and the trip list is untouched |
| `SellerProfile.TripsAreTheSellers` | src/pages/SellerProfile.tsx:205-219 | The trip list is either unchanged or exactly the signed-in renter's returned requests whose listing belongs to the seller |
| `SellerProfile.SellerFromFirstListing` | src/pages/SellerProfile.tsx:191-202 | The seller card changes only to the demo card, or to the first listing's joined user row, when the listings are non-empty and that row exists |
| `SellerProfile.ReturnedRequestsBecomeTrips` | src/pages/SellerProfile.tsx:207-217 | For a non-demo seller and a signed-in user, a returned request list always replaces the trips with exactly that list filtered to the seller |
| `SellerProfile.FirstListingSetsSeller` | src/pages/SellerProfile.tsx:191-202 | For a non-demo seller, returned non-empty rows always become the listings. The card is always the first row's `users` join when present, and is kept when absent |
| `SellerProfile.FailedListingsKeepProducts` | src/pages/SellerProfile.tsx:184-191 | For a non-demo seller, a listings query that threw, returned `null` or returned no rows leaves the listings unchanged |
| `SellerProfile.LoadingEnds` | src/pages/SellerProfile.tsx:146-226 | For a non-empty seller id the load always ends with `loading` cleared, whatever the store answers or throws |
| `SellerProfile.DefaultSelection` | src/pages/SellerProfile.tsx:132-136 | The first listing becomes selected only when there is one and nothing is selected; an existing selection is kept |
| `SellerProfile.CentreFor` | src/pages/SellerProfile.tsx:139-143 | The map centre moves to the selected listing iff both its coordinates are truthy (a 0 counts as missing); otherwise it stays |
| `SellerProfile.SellerProfileView.constructor` | src/pages/SellerProfile.tsx:103-110 | The page starts with no seller, listings or trips, nothing selected, `loading` set and the map at `(20.0, 73.78)` |
| `SellerProfile.SellerProfileView.LoadSellerData` | src/pages/SellerProfile.tsx:146-226 | Seller, listings, trips and `loading` become what `AfterLoad` gives, and the queries issued are appended in order |
| `SellerProfile.SellerProfileView.SelectDefaultProduct` | src/pages/SellerProfile.tsx:132-136 | The selection becomes `DefaultSelection` of the listings and the old selection |
| `SellerProfile.SellerProfileView.CentreMap` | src/pages/SellerProfile.tsx:139-143 | The map centre becomes `CentreFor` the selection and the old centre |
| `Home.Phrase` | src/pages/Home.tsx:171-172 | `loopNum % length` is a valid index and picks that phrase |
| `Home.PagePhrase` | src/pages/Home.tsx:124-130 | The page has five phrases and tick `loopNum` types phrase `loopNum % 5` |
| `Home.Substring` | src/pages/Home.tsx:174-177 | `substring` never yields more than the string; in-range ends give that slice, reversed ends the swapped slice, and ends both before the start or both past the end give `""` |
| `Home.SubstringFromZero` | src/pages/Home.tsx:174-177 | `substring(0, k)` is the clamped prefix of length `k`; a negative `k` gives the empty string |
| `Home.Valid` | src/pages/Home.tsx:169-186 | The invariant the typing effect keeps: the placeholder is never longer than the current phrase (it is a prefix of it), and the pause timer is pending only while typing |
| `Home.InitialValid` | src/pages/Home.tsx:133-136 | The initial state (empty, typing, phrase 0, 80 ms) satisfies the invariant |
| `Home.NextTyping` | src/pages/Home.tsx:170-186 | After a tick the delay is 25 ms if it was deleting and 50 ms if typing. The placeholder is a prefix of the current phrase. Only a deleting tick on an empty placeholder switches to typing and advances `loopNum` by exactly one |
| `Home.AfterPause` | src/pages/Home.tsx:181-182 | The pause timer turns deletion on only if it was pending, and is then no longer pending |
| `Home.DeletionStartsOnFullPhrase` | src/pages/Home.tsx:181-182 | Deletion is switched on only when the whole phrase is displayed, and the invariant is kept |
| `Home.TickKeepsValid` | src/pages/Home.tsx:171-185 | Every tick keeps the placeholder a prefix of the current phrase and the pause pending only on the full phrase |
| `Home.TypingTickAddsOneCharacter` | src/pages/Home.tsx:176 | A typing tick appends exactly the next character of the phrase, or changes nothing once the phrase is full |
| `Home.DeletingTickRemovesOneCharacter` | src/pages/Home.tsx:175 | A deleting tick removes exactly the last character and never goes below empty |
| `Home.TypingStep` | src/pages/Home.tsx:176 | Before the phrase is complete a tick keeps typing the same phrase with one more character |
| `Home.TypesPhrase` | src/pages/Home.tsx:169-191 | `n` ticks while typing show `n` more characters of the phrase |
| `Home.DeletingStep` | src/pages/Home.tsx:175 | A deleting tick on a non-empty placeholder keeps deleting the same phrase |
| `Home.DeletesPhrase` | src/pages/Home.tsx:169-191 | `n` deleting ticks remove the last `n` characters |
| `Home.CycleMovesToNextPhrase` | src/pages/Home.tsx:169-191 | From an empty placeholder, `len + 1` ticks show the full phrase with the pause pending; after the pause, `len + 1` more ticks give an empty placeholder, typing, with `loopNum` advanced by one |
| `Home.BuiltInListingsOpenInPlace` | src/pages/Home.tsx:28-119 | Every built-in listing opens in the detail view at its own position with at least two gallery images |
| `Home.AllMachinery` | src/pages/Home.tsx:167 | The listings are the built-in ones followed by the fetched ones, in order, and the length is the sum |
| `Home.FormattedListingOpensAtProduct` | src/pages/Home.tsx:148-160 | A fetched listing opens at the product's own `(lat, lng)` and with its gallery, or three copies of its image |
| `Home.FormatProduct` | src/pages/Home.tsx:148-160 | A fetched row becomes a listing with the row's id, name, category, image, description and gallery. Its rating is "New" and its price label is `₹` followed by the rendered price. Its location is the row's `(lat, lng)`, read latitude-first. It has no experience or rent count |
| `Home.FormatProducts` | src/pages/Home.tsx:148-160 | One formatted listing per fetched row, in order |
| `Home.HomePage.constructor` | src/pages/Home.tsx:133-138 | The page starts in the initial typing state with no fetched listings |
| `Home.HomePage.Step` | src/pages/Home.tsx:170-186 | A tick moves the state to `NextTyping` of the old state and keeps the invariant |
| `Home.HomePage.PauseElapsed` | src/pages/Home.tsx:182 | The pause timer moves the state to `AfterPause` of the old state and keeps the invariant |
| `Home.HomePage.LoadProducts` | src/pages/Home.tsx:142-165 | On a store error the list is unchanged; otherwise it becomes the formatted rows |

## Left out

- `MachineryDetail.DetailView.NextImage`: rotates with the intended `Rotated`. It does not follow the written code on an empty gallery (see Findings).
- Home's typing lemmas are stated for any non-empty phrase list. `PagePhrase` ties them to the five phrases. This keeps the literal strings out of every proof.
- Remote store: queries to `products`, `users` and `rental_requests` are not executed. Their answers are inputs. The requester filter `requester_id = user.id` is done by the store and assumed of its answer.
- The host's `fetch` and geolocation are inputs: a function parameter, and a method called on success. A geolocation failure only logs, and a missing `navigator.geolocation` does nothing at all. Both are the absence of a call.
- Console logging is not modelled.
- Timing and async ordering are not modelled: when the tick timer fires, `clearTimeout`, effect re-runs on dependency changes, and React's bail-out on unchanged state. Races between overlapping route requests are also out: each route effect runs to completion atomically.
- Text rendering of numbers (JavaScript number-to-string in the price label) is a `show` parameter. `Intl.NumberFormat` currency formatting and `toFixed` are not modelled.
- The request URL text is not modelled: the endpoint, the `api_key=` parameter and how the coordinates are rendered as text.
- In `MachineryDetail.tsx` the `GoogleMap` that carries `onLoad`/`onUnmount` (lines 366-392) sits inside a JSX comment (lines 347-405). So, as shipped, `mapRef.current` stays `null` and the framing branch (lines 218-224) never runs. `MachineryDetail.DetailView.MapLoaded` and `MapUnmounted` stand for the component with that markup in place. With `mapAttached` false, the model also gives the shipped behaviour: the path is set and nothing is framed.
- Map widget: `LatLngBounds` is a plain min/max box, with no antimeridian wrapping. What `fitBounds` does on screen, markers and polylines are not modelled.
- JSON shapes are simplified. `features` that is present but not an array is treated as absent. Coordinate entries are exact pairs; arrays of other lengths and non-numeric values are not modelled. A body that parses to JSON `null` is not distinguished from a failed parse.
- `lat`/`lng` are reals, so JavaScript truthiness is `x != 0`. `null` and `NaN` coordinates are not modelled.
- Identifiers are strings. The built-in listings' numeric ids 1–6 and the demo listing's 999 become "1"–"6" and "999".
- The built-in listings' images are imported assets. The model names each by a shortened file name: `tractor_side.png` stands for `tractor_side_1768688693390.png`, dropping the numeric suffix.
- `MachineryDetail` returns `null` without a `machine`. The model always constructs the view with one.
- `SellerProfileView`: `loading` set to `true` mid-load is not observable because loads are atomic. `loadError` rendering is not modelled. `sellerId` and `user` are fixed per view instance.
- `Home.HomePage.LoadProducts`: an answer is either an error or a list of rows. An answer with no error and `data` `null` is not modelled; the code would throw inside the effect.
- Routing and geolocation failures are only logged by the code. The model shows them as the absence of a state change, not as error values. Stale route answers are not discarded: the last answer applied wins.
- Other files are not part of this model: `AddProductModal.tsx`, `CompleteProfileForm.tsx`, `WelcomeCard.tsx`, `ShowcaseCard.tsx`, `App.tsx`, `UserProfilePage.tsx`, and the store helpers in `api.ts`. Row types follow `types.ts` where it overlaps. Rendering, styles and the remaining page markup are out as well.

## Findings

| source | as written | input that shows it | evidently intended | confidence | as-written member | corrected member |
|---|---|---|---|---|---|---|
| src/components/MachineryDetail.tsx:148-151 | `const [first, ...rest] = prev; return [...rest, first]` on an empty gallery yields `[undefined]` | a listing whose `gallery` is an empty array (`[]` is truthy, so it is kept at line 145), then one press of the next button | rotating an empty gallery leaves it empty | low (reachable only if a stored `gallery_urls` is an empty array); not executed | `MachineryDetail.EmptyGalleryGainsUndefined` | `MachineryDetail.Rotated` |
