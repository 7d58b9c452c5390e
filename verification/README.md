# Location search, geocoding normalisation and site/post update rules

This project models the decision and transformation rules of a multi-tenant
website builder. The rest of that code base is React forms and database glue.
The model covers four parts:

- **The search bar** (`components/SearchBar/index.tsx`). It holds a query, a
  result list and a dropdown flag. It writes a chosen location into one
  property of the form data. The collection property `secondaryActivityCities`
  gains the location only when no element has the same `uniqueId`. Any other
  property is overwritten. A query shorter than three characters clears the
  results and is not looked up.
- **Geocoding normalisation.** This is shared by the two API routes and the two
  server actions. The provider's features are filtered to those with a
  `formatted` address or a `name`. The radius lookup also requires a
  city/town/village category. Each kept feature becomes
  `{ uniqueId: "<lat>-<lon>", name, lat, lng }`.
- **The two API routes.** Each route's missing-key, unreadable-body,
  invalid-radius and provider-failure answers are modelled. The server-action
  twins return or throw, and they are proved to agree with the routes.
- **The `lib/actions.ts` update rules.** These are the custom-domain branch of
  `updateSite` and its error mapping, the owner check of `updatePost`, and the
  `published` coercion of `updatePostMetadata`.

All I/O is passed in as parameters: the geocoding provider, database writes and
domain registration. Each operation is a pure function. Its result records what
it would send or write: the provider request, the list of effects issued, or
the write. Collaborators whose code is not part of this model are also
parameters, as total functions:

- `formatLocationAddress`
- the domain regular expression `validDomainRegex.test`
- JavaScript number-to-string conversion
- `parseFloat`

Modules: `JsValues` (optional values, numbers with NaN, truthiness, `includes`),
`Seqs` (`filter`/`map` and their subsequence characterisation), `Geo`, `Http`,
`AutocompleteRoute`, `CitiesRoute`, `LookupActions`, `Effects` (running awaited
effects until one throws), `SiteActions`, `PostActions`, `SearchBar`.

Behaviour of the code a reader may not expect:

- The radius check rejects only NaN, so an infinite radius is accepted
  (`Geo.InfiniteRadiusAccepted`).
- Lookup answers are not sequenced. A late answer to an older query overwrites
  newer state (`SearchBar.LateAnswerShowsStaleResults`).
- A failed free-text lookup leaves the previous results in place. It does not
  empty them (`SearchBar.FailedAnswerKeepsEarlierResults`).
- One provider feature without `categories` fails the whole radius lookup. The
  feature is not dropped on its own (`CitiesRoute.UncategorisedFeatureFailsLookup`).
- The `autocompleteSearch` action returns a 401 response object for a missing
  key instead of throwing.

## Model

| member | source | states |
|---|---|---|
| JsValues.IncludesAtOffset | lib/actions.ts:87 | `value.includes(t)` holds exactly when some offset of `value` starts a copy of `t` |
| Geo.CoerceRadius | app/api/fetchCitiesInRadius/route.ts:17-25 | a string radius is parsed and a number is taken as is. It is accepted exactly when the result is a number other than NaN. Any other JSON value is rejected |
| Geo.InfiniteRadiusAccepted | app/api/fetchCitiesInRadius/route.ts:17-18 | only NaN is rejected: an infinite radius, as a number or as a string parsed to Infinity, passes validation |
| Geo.NormaliseKeepsCoordinates | app/api/fetchCitiesInRadius/route.ts:39-47 | each output location has `uniqueId` `<lat>-<lon>`, the formatted address as name, `lat` from `properties.lat` and `lng` from `properties.lon` of its feature, one per feature |
| Geo.ToLocationIdOfCoordinates | app/api/autocompleteSearch/route.ts:26-31 | every location built from a feature has `uniqueId` equal to the id of its own `lat` and `lng` |
| Geo.AutocompleteLocationsSpec | app/api/autocompleteSearch/route.ts:24-32 | the free-text output is an order-preserving one-to-one image of exactly the features with a truthy `formatted` or `name`. It is never longer than the input |
| Geo.KeepCitiesFailsIffUncategorised | app/api/fetchCitiesInRadius/route.ts:35-38 | the radius filter throws exactly when some feature has no `categories` |
| Geo.KeepCitiesIsFilter | app/api/fetchCitiesInRadius/route.ts:35-38 | when it does not throw, the radius filter keeps, in order, exactly the features with a populated-place category and a label |
| Geo.CityLocationsSpec | app/api/fetchCitiesInRadius/route.ts:35-47 | the radius output is an order-preserving one-to-one image of exactly the labelled features in the city, town or village category. It is never longer than the input |
| AutocompleteRoute.Post | app/api/autocompleteSearch/route.ts:7-43 | 401 exactly when the key is missing, then without reading the body or calling the provider. The provider is asked with the caller's query exactly when a key and a body are present. The 200 answer holds the normalised labelled features, and a provider failure gives 500 |
| AutocompleteRoute.PostJsonIsLabelledSubsequence | app/api/autocompleteSearch/route.ts:24-32 | a 200 answer is at most as long as the provider's features and keeps their order. Each location comes from a labelled feature and carries that feature's coordinates and id |
| CitiesRoute.Post | app/api/fetchCitiesInRadius/route.ts:7-56 | 401 exactly when the key is missing, before the body is read and without a lookup. 400 exactly when the radius is invalid, without a lookup. The request carries the city/town/village categories, limit 100 and the coerced radius. A provider failure or a feature without categories gives 500 |
| CitiesRoute.PostJsonIsPopulatedPlaceSubsequence | app/api/fetchCitiesInRadius/route.ts:27-47 | a 200 answer lists, in provider order, exactly the labelled features in a populated-place category, one location each. It holds at most 100 locations when the provider honours the limit |
| CitiesRoute.UncategorisedFeatureFailsLookup | app/api/fetchCitiesInRadius/route.ts:35-55 | one feature lacking `categories` turns the whole answer into the 500 lookup-failure response |
| LookupActions.AutocompleteSearch | lib/actions.ts:449-486 | a missing key returns a 401 response object without a lookup. Otherwise the provider is asked with the query. A failure throws, and success returns the normalised labelled features |
| LookupActions.FetchCitiesInRadius | lib/actions.ts:488-534 | a missing key or a NaN radius throws without a lookup. A provider failure or a feature without categories throws the lookup error. Success returns the labelled populated places |
| LookupActions.AutocompleteActionAgreesWithRoute | lib/actions.ts:460-484 | with a key, the action sends the route's request. It returns what the route answers with 200, and throws exactly when the route answers 500 |
| LookupActions.CitiesActionAgreesWithRoute | lib/actions.ts:491-532 | the radius action sends the route's request and returns what the route answers with 200. It throws, with the route's message, exactly when the route answers with an error status |
| Effects.RunFrom | lib/actions.ts:94-122 | awaited effects run in order. The run completes exactly when none throws. Otherwise it stops at the first effect that throws, and every earlier one succeeded |
| SiteActions.LastResponder | lib/actions.ts:84-122 | the returned response is the last issued database update or domain removal. Domain registrations never provide it, and it is `undefined` when only registrations were issued |
| SiteActions.UpdateSite | lib/actions.ts:79-217 | an early error issues nothing. Otherwise the planned effects are issued in order until one throws. A throw returns the mapped message of that effect's error, and the effects after it are never issued |
| SiteActions.ReservedDomainRefused | lib/actions.ts:87-91 | a custom domain containing `vercel.pub` returns the error. Nothing is written, registered or removed |
| SiteActions.ValidDomainStoredThenAdded | lib/actions.ts:87-123 | a value that does not contain `vercel.pub` and matches the domain pattern plans exactly: write it to `customDomain`, then register it, then remove the old domain if it was non-empty and different. When nothing throws, the write and the registration are both issued |
| SiteActions.EmptyValueClearsDomain | lib/actions.ts:107-123 | when the domain pattern rejects the empty string, an empty value plans exactly: write `NULL` to `customDomain`, then remove the old domain if it was non-empty. No domain is registered |
| SiteActions.OldDomainRemovedIffReplaced | lib/actions.ts:121-123 | past the reserved-domain check, the old domain is unregistered, as the last effect, exactly when it was non-empty and differs from the new value |
| SiteActions.UnmatchedValueOnlyRemovesOldDomain | lib/actions.ts:86-123 | a non-empty value that does not contain `vercel.pub` and fails the domain pattern plans nothing but the removal of a differing non-empty old domain. It writes nothing to the site and registers nothing, whatever the old domain was |
| SiteActions.UniqueViolationReported | lib/actions.ts:205-214 | an error thrown by the first effect ends the update with nothing issued after it. P2002 returns "This <key> is already taken", and any other error returns its own message |
| PostActions.UpdatePost | lib/actions.ts:274-324 | no session gives "Not authenticated". A missing post or another user's post gives "Post not found" without a write. The owner's edit writes only title, description and content. A write that does not throw returns the updated post, and a failing write returns its raw message |
| PostActions.RepeatedEditIsStable | lib/actions.ts:294-318 | applying the same edit again to the post it returned issues the same write and returns the same post |
| PostActions.MetadataValue | lib/actions.ts:363 | key `published` stores a boolean that is true exactly for the text "true". Every other key stores the raw string |
| PostActions.UpdatePostMetadata | lib/actions.ts:326-393 | key `image` uploads the image. Any other key writes that one column with the coerced value. Any thrown error is reported through the metadata error mapping |
| PostActions.MetadataUniqueViolationIsSlug | lib/actions.ts:381-391 | P2002 is reported as "This slug is already in use" whichever field was edited. Any other error is reported by its own message |
| PostActions.PublishedRoundTrip | lib/actions.ts:363 | a boolean sent as "true" or "false" is stored back as the same boolean |
| PostActions.OnlyExactTruePublishes | lib/actions.ts:363 | any `published` text other than exactly "true" stores `false` |
| SearchBar.HasId | components/SearchBar/index.tsx:49 | `some(x => x.uniqueId === id)` holds exactly when an element carries the id |
| SearchBar.UpdateArray | components/SearchBar/index.tsx:48-55 | a location whose id is absent is appended: the list grows by one, the new element is last and the others keep their order. A present id leaves the list unchanged and is reported as a duplicate |
| SearchBar.UpdateArrayCount | components/SearchBar/index.tsx:48-55 | after appending, the number of elements with the location's id is 1 if it was 0, and unchanged otherwise |
| SearchBar.DuplicateIffSameCoordinates | components/SearchBar/index.tsx:48-55 | when each location carries the id of its coordinates (app/api/autocompleteSearch/route.ts:27) and those ids tell apart the coordinates in the list, a location is rejected as a duplicate exactly when the list already has one at the same `lat` and `lng` |
| SearchBar.UpdateArrayKeepsIdsUnique | components/SearchBar/index.tsx:48-55 | appending keeps a list free of repeated ids |
| SearchBar.ResultClick | components/SearchBar/index.tsx:57-77 | every click empties the results and closes the dropdown, and only the bound property changes. A single property is overwritten and the query shows the result's name. The collection gains the result unless its id is present, which raises the notice. The query ends empty |
| SearchBar.SelectTwiceKeepsOne | components/SearchBar/index.tsx:48-69 | when the collection held at most one element with the result's id (always so under `FormInvariant`), selecting that result twice leaves exactly one element with its id. The second click changes nothing and raises the notice |
| SearchBar.ClearSearch | components/SearchBar/index.tsx:85-106 | the query and results are emptied and the dropdown closed. The collection is reset to `[]`, or a single property to the empty sentinel location. No other property changes |
| SearchBar.ClearIdempotent | components/SearchBar/index.tsx:85-106 | clearing twice is the same as clearing once |
| SearchBar.SelectAfterClear | components/SearchBar/index.tsx:62-94 | after a clear, a selection into the collection leaves exactly that one location, with no notice |
| SearchBar.UniqueIdsCountAtMostOne | components/SearchBar/index.tsx:48-55 | in a list free of repeated ids, at most one element carries any given id, so the premise of `SelectTwiceKeepsOne` holds for every form that keeps the invariant |
| SearchBar.ActionsPreserveFormInvariant | components/SearchBar/index.tsx:57-106 | selections and clears, on any bound property, keep the collection a list with no repeated ids |
| SearchBar.Edit | components/SearchBar/index.tsx:43-46 | typing sets the query to the text and opens the dropdown. The results are kept, so the dropdown shows exactly when earlier results exist |
| SearchBar.ApplyResponse | components/SearchBar/index.tsx:28-35 | a JSON answer replaces the results. An error status or a thrown request leaves the session as it was. The query and the dropdown flag never change |
| SearchBar.FetchResults | components/SearchBar/index.tsx:22-31 | a query under three characters clears the results without a lookup. A longer query is looked up unchanged |
| SearchBar.ShortQueryHidesResults | components/SearchBar/index.tsx:23-26 | after typing a query under three characters, the results are empty, the dropdown is hidden and no lookup is issued |
| SearchBar.FailedAnswerKeepsEarlierResults | components/SearchBar/index.tsx:28-35 | a lookup that fails, by an error status or an unhandled failure, is only logged. The results of the previous successful lookup stay shown under the new query |
| SearchBar.LateAnswerShowsStaleResults | components/SearchBar/index.tsx:21-41 | an answer to an earlier long query that arrives after the query was shortened still shows its results. Answers are not matched to the query that issued them |

## Left out

- Timing: the 300 ms debounce, its `clearTimeout` cleanup, the `useEffect` lifecycle and the mousedown click-outside listener are not modelled. The model runs lookups as explicit steps in any order the caller chooses (`SearchBar.FetchResults`, `SearchBar.Edit`, `SearchBar.ApplyResponse`).
- I/O is left abstract: Geoapify HTTP calls, Prisma reads and writes, Vercel domain registration and removal, Vercel Blob `put`, `getBlurDataURL` and `console` logging. These appear only as requests, effects and failure parameters. The values the database and Vercel return are represented only by the effect that produced them.
- `revalidateTag` calls after a successful update are not modelled. They are cache invalidation and run after every effect modelled here. They sit inside the same `try` (lib/actions.ts:198-202, 306-316, 368-378), so one that throws would turn a completed update into an `{ error }` reply. The model assumes they do not throw.
- SiteActions.UpdateSite: a completed run always gives `Response`. A `revalidateTag` that throws afterwards, which would give an `{ error }` reply, is not modelled.
- PostActions.UpdatePost: a write that does not throw always returns the updated post. A `revalidateTag` that throws afterwards, which would give an `{ error }` reply, is not modelled.
- AutocompleteRoute.Post: its 500 answer is stated as exactly the provider failure. `ProviderFailure` stands for every reply that makes the handler throw: the request throwing, a reply without a `features` array, or a feature without `properties`. Features always carry `properties` in this model.
- CitiesRoute.Post: its 500 answer is stated as exactly a provider failure or a feature without `categories`. `ProviderFailure` also covers a reply without a `features` array or with a feature without `properties`, as for the free-text route.
- `formatLocationAddress`, `validDomainRegex`, JavaScript number-to-string conversion and `parseFloat` live in code that is not part of this model. They are uninterpreted parameters.
- Coordinates are exact reals. No arithmetic is performed on them, and the float arithmetic `radius * 1000` is not modelled.
- CitiesRoute.Post: records the radius in kilometres that the metre value of the circle filter is computed from, not the metre value itself, because that product is floating-point arithmetic.
- SiteActions.UpdateSite: the image/logo branch is one abstract `StoreImage` effect. Its blob upload, blur hash and random file name (`nanoid`) are I/O and randomness.
- PostActions.UpdatePostMetadata: the image branch is one abstract effect, and the updated post it returns is not modelled.
- Authentication wrappers are not modelled: the `next-safe-action` middleware in `lib/safe-actions.ts`, and `withSiteAuth`/`withPostAuth` (`lib/auth` is not part of this model). The zod input schemas are also left out. The actions start after these checks; only `updatePost`'s own session check is modelled.
- `generateServices` (QStash/Perplexity job dispatch) is left out because it is a fire-and-forget external job. `createSite` only logs.
- `deleteSite`, `createPost`, `deletePost`, `editUser` and `getSiteFromPostId` are outside the modelled set. They have their own session checks and error mappings: `createPost` checks the session, `editUser` checks the session and maps P2002 to "This <key> is already in use", and `deleteSite` and `deletePost` return thrown errors as messages. The model covers only the update actions and the two lookups, whose rules the search bar and the site settings depend on.
- The createSite page is not modelled: its radius re-fetch and its derived subdomain are form wiring outside the search bar and the actions modelled here.
- Database reads that throw (`findUnique` in `updatePost`, outside its `try`) are not modelled: the read is a parameter holding the post found, if any.
- `formData.get(key)` returning `null` for an absent key is not modelled: the value is always a string.
- Query length is counted in characters, not UTF-16 code units as JavaScript's `length` does, so the two differ only for characters outside the Basic Multilingual Plane.
- SearchBar.ResultClick: the collection property is assumed to hold a list of locations or to be absent. The component is generic over its form data, and spreading a string stored there would give its characters, while a non-iterable value would throw.
- The toast is modelled as the notice text returned by a step. Rendering, including the clear icon shown only for a non-empty query, is not modelled.
