# Event service core, modelled in Dafny

This project models the core of an event-management service.

The core is an in-memory HTTP server. Its admin routes take a bearer token and create, update and list events. Its public routes list the published and cancelled events and stream an AI-style summary of one event as Server-Sent Events; the summary comes from a cache when one is fresh.

The model also covers two more parts:

- the small rules of the Prisma-backed backend: its status-transition blacklist, its summary cache and key hashing, its public controller, its upload, error and authentication middleware;
- the browser client's query assembly and its reading of the summary stream.

## Layout

One module per source file; each module imports the modules it needs.

| file | module | models |
|---|---|---|
| `wrappers.dfy` | `Wrappers` | `Option`, and the `{ valid, error? }` check result `Verdict` |
| `text.dfy` | `Text` | JavaScript `trim`, `split`, `join`, `includes`, `indexOf`, string `<`, `Math.ceil` of a quotient, decimal printing |
| `event_model.dfy` | `EventModel` | the event record, its public projection and the validators |
| `event_store.dfy` | `EventStoreService` | the `EventStore` class: create, find, update, query, queryPublic, clear |
| `summary_cache.dfy` | `SummaryCacheService` | the `SummaryCache` class with its one-hour lifetime |
| `summary_generator.dfy` | `SummaryGenerator` | the summary text, its word chunking and the streamed fragments |
| `errors.dfy` | `ApiErrors` | the uniform error body |
| `server_auth.dfy` | `ServerAuth` | the admin-route bearer-token guard |
| `http.dfy` | `ServerHttp` | responses, query parameters, `parseInt(...) \|\| default`, comma lists |
| `event_routes.dfy` | `EventRoutes` | `POST /events`, `PATCH /events/:id`, `GET /events` |
| `public_routes.dfy` | `PublicRoutes` | `GET /public/events`, `GET /public/events/:id/summary` |
| `backend_transitions.dfy` | `BackendTransitions` | the backend's transition blacklist |
| `cache_keys.dfy` | `CacheKeys` | the backend's canonical-key hashing |
| `cache_service.dfy` | `BackendCache` | the backend's `CacheService` class |
| `public_controller.dfy` | `PublicController` | the backend's public list, search and summary endpoints |
| `upload_validators.dfy` | `UploadValidators` | the image upload check |
| `error_handler.dfy` | `ErrorHandler` | the backend's final error handler |
| `backend_auth.dfy` | `BackendAuth` | the backend's legacy admin-token guard |
| `jwt_auth.dfy` | `JwtAuth` | the backend's JWT, optional, role and hybrid guards |
| `client_api.dfy` | `ClientApi` | the client's list queries, bearer header and summary-stream reader |

## How the model represents the service

- **Time and randomness.** The clock is a parameter `now`, in milliseconds. The fresh uuid of a created event is a parameter `id`.
- **Timestamps.** A timestamp is an `Instant`: the ISO text as sent, together with its millisecond value.
- **Library functions.** The following are function-valued parameters about which nothing is assumed:
  - the parsing of raw request text (`new Date(text)`, which gives None for an invalid date);
  - `parseInt`;
  - SHA-256;
  - `JSON.stringify`;
  - URL encoding;
  - the locale date formatting;
  - JWT verification.
- **Stored state.**
  - The stored events are a `map` plus the sequence of ids in first-insertion order. That order is the iteration order of the source's `Map`.
  - Both caches are `map`s held by classes whose methods reassign them.
- **Streams.**
  - A Server-Sent Events response is a sequence of headers and a sequence of writes.
  - A generator failure is an input `failAt`: the number of chunks after which the generator throws, if it does.
  - A client that closes the backend's stream is an input `closeAfter`: the number of timer ticks that run before the close.

## Where the code and the documented behaviour differ

The model follows the code. These differences are stated as lemmas:

- **Chunk sizes.** The generator's comments promise chunks of 2 to 5 words. The code gives 2 words, then 4 every time, with a last chunk that may be shorter (`SummaryGenerator.ChunkLayout`).
- **Cancelled events can be modified.** A notes-only PATCH on a CANCELLED event is accepted. It sets the status to undefined, and from there any status may be requested (`EventRoutes.CancelledEscape`).
- **The two transition rules disagree.** The in-memory server and the backend agree on every change of status. They disagree on every self-transition (`BackendTransitions.RulesDifferOnlyOnSelfTransitions`).
- **The summary key ignores status.**
  - In the in-memory server, the key leaves out the status and `isUpcoming`, which the text depends on (`SummaryCacheService.StaleSummaryShared`). Its `|` join is not injective (`SummaryCacheService.KeyTextCollides`).
  - In the backend, cancelling an event keeps the key of its cached summary (`PublicController.StaleSummaryAfterCancel`).
- **When the cache is written.**
  - The in-memory server never observes a client disconnect, so a MISS stream reaches its cache write unless the generator fails (`PublicRoutes.StreamEventSummary`).
  - The backend caches before it streams, so the cache is written even when the client closes at once (`PublicController.GetEventSummary`).
- **When the cache entry is invalidated.** A PATCH invalidates the cache entry only when it supplies a status different from the stored one, not on every update (`EventRoutes.UpdateEvent`).

## Model

Source paths are relative to the repository root.

| member | source | states |
|---|---|---|
| Text.TrimIsCore | Test_NOLTE/event-service/server/src/models/Event.ts:55 | `trim` returns a slice of its input that drops only white space on each side and neither starts nor ends with white space |
| Text.TrimEmptyIffAllSpace | Test_NOLTE/event-service/server/src/models/Event.ts:55 | `s.trim().length === 0` holds exactly when `s` is all white space |
| Text.TrimTrailingBlank | Test_NOLTE/event-service/server/src/routes/public.ts:100 | trimming the accumulated summary removes the trailing blank: `(s + " ").trim() == s.trim()` |
| Text.Split | Test_NOLTE/event-service/server/src/routes/events.ts:153 | `split` on one character yields at least one piece and no piece contains the separator |
| Text.JoinSplit | Test_NOLTE/event-service/server/src/services/AISummaryGenerator.ts:50 | joining the pieces of a split with the same separator gives the text back |
| Text.SplitJoin | Test_NOLTE/event-service/server/src/routes/events.ts:152-158 | splitting a join of separator-free pieces gives the pieces back |
| Text.ContainsIffOccurrence | event-service/backend/src/services/CacheService.ts:24 | `includes` holds exactly when the pattern occurs at some index; the empty pattern occurs in every string |
| Text.IndexOf | Test_NOLTE/event-service/server/src/models/Event.ts:143-146 | the index found holds the character and no earlier index does; None exactly when the character is absent |
| Text.LexLessTotal | event-service/backend/src/utils/hash.ts:4-5 | the default sort's string comparison orders any two distinct keys one way or the other |
| Text.LexLessTransitive | event-service/backend/src/utils/hash.ts:4-5 | the default sort's string comparison is transitive |
| Text.CeilDivBounds | Test_NOLTE/event-service/server/src/services/EventStore.ts:116 | `Math.ceil(total / limit)` is the least whole number of pages covering `total` |
| EventModel.StatusFromText | Test_NOLTE/event-service/server/src/models/Event.ts:6-10 | a string is a status exactly when it is one of the three enumeration values, and it maps to the status of that name |
| EventModel.StatusNameRoundTrip | Test_NOLTE/event-service/server/src/models/Event.ts:6-10 | every status is read back from its name |
| EventModel.TitleRule | Test_NOLTE/event-service/server/src/models/Event.ts:53-62 | a title passes exactly when it is not all white space and has at most 200 characters; each error appears exactly when its condition holds |
| EventModel.DatesRule | Test_NOLTE/event-service/server/src/models/Event.ts:64-87 | each date error appears exactly when its condition holds; the order and past checks run only when both dates parse; a start equal to `now` passes |
| EventModel.ValidateStatus | Test_NOLTE/event-service/server/src/models/Event.ts:89-95 | no error exactly for an enumeration value, otherwise the single membership message |
| EventModel.TransitionWhitelist | Test_NOLTE/event-service/server/src/models/Event.ts:97-120 | accepted exactly for DRAFT to PUBLISHED, DRAFT to CANCELLED and PUBLISHED to CANCELLED; every other pair, self-transitions included, gets exactly one message; from CANCELLED always "cannot be modified" |
| EventModel.TransitionFromUndefined | Test_NOLTE/event-service/server/src/models/Event.ts:97-120 | with an undefined stored status no branch fires, so any requested status passes |
| EventModel.EmailCheckMatchesPattern | Test_NOLTE/event-service/server/src/models/Event.ts:143-146 | the creator check holds exactly when the string matches `^[^\s@]+@[^\s@]+\.[^\s@]+$` |
| EventModel.CreateRule | Test_NOLTE/event-service/server/src/models/Event.ts:122-141 | a create request passes exactly when title, dates and location pass, a given status is a member, and a given creator is an e-mail address |
| EventModel.CreateErrorOrder | Test_NOLTE/event-service/server/src/models/Event.ts:122-140 | the errors are the title errors, then the date errors, the location error, the status errors and the e-mail error, each group in place; so the first error reported comes from the first check that fails |
| EventModel.ToPublicEvent | Test_NOLTE/event-service/server/src/models/Event.ts:152-174 | no projection exactly when the status is not PUBLISHED or CANCELLED; otherwise the public fields are copied and `isUpcoming` is start > now, strictly |
| ApiErrors.CreateErrorResponse | Test_NOLTE/event-service/server/src/middleware/errors.ts:19-36 | code and message are kept; `details` is present exactly when it is given and non-empty |
| ApiErrors.MessageDetailsRoundTrip | Test_NOLTE/event-service/server/src/middleware/errors.ts:38-44 | one detail per message, in order and without a field; the details carry the messages back |
| ApiErrors.ValidationError | Test_NOLTE/event-service/server/src/middleware/errors.ts:38-44 | code VALIDATION_ERROR and message "Validation failed"; no details exactly for an empty list; otherwise the details carry the messages |
| ApiErrors.NotFoundError | Test_NOLTE/event-service/server/src/middleware/errors.ts:46-48 | code NOT_FOUND, no details, the given message or "Resource not found" |
| ApiErrors.InternalError | Test_NOLTE/event-service/server/src/middleware/errors.ts:50-52 | code INTERNAL_ERROR, no details, the given message or "Internal server error" |
| ServerAuth.AuthenticateExactly | Test_NOLTE/event-service/server/src/middleware/auth.ts:16-53 | accepted exactly for the header `Bearer admin-token-123`, with the token as the user; every rejection is 401 UNAUTHORIZED; a missing header gets its own message |
| EventStoreService.KeepMembers | Test_NOLTE/event-service/server/src/services/EventStore.ts:79-105 | a filter keeps an event exactly when the event is in the input and satisfies the criterion |
| EventStoreService.KeepMultiset | Test_NOLTE/event-service/server/src/services/EventStore.ts:79-105 | a filter never adds or duplicates events |
| EventStoreService.StagesCompose | Test_NOLTE/event-service/server/src/services/EventStore.ts:78-105 | the three guarded filters in sequence are one conjunctive filter |
| EventStoreService.SortFacts | Test_NOLTE/event-service/server/src/services/EventStore.ts:107-110 | the sort orders by start time, is a permutation, and keeps the events sharing a start time in their input order |
| EventStoreService.QueryMatches | Test_NOLTE/event-service/server/src/services/EventStore.ts:75-110 | an event matches exactly when it is stored and meets every criterion; the matches are sorted by start, with ties in insertion order |
| EventStoreService.SliceIndex | Test_NOLTE/event-service/server/src/services/EventStore.ts:120 | `slice` clamps a relative index into the sequence's bounds |
| EventStoreService.PageLimit | Test_NOLTE/event-service/server/src/services/EventStore.ts:114 | `Math.min(limit \|\| 20, 100)` is never 0 and at most 100 |
| EventStoreService.PaginateWindow | Test_NOLTE/event-service/server/src/services/EventStore.ts:117-120 | for a positive page and limit the data is the window [(page-1)·limit, page·limit) of the matches, clipped at the end |
| EventStoreService.QueryPagination | Test_NOLTE/event-service/server/src/services/EventStore.ts:112-130 | page defaults to 1; limit defaults to 20 and is capped at 100; total counts every match; totalPages is ceil(total / limit); the data is the page's slice of the matches |
| EventStoreService.ProjectPublic | Test_NOLTE/event-service/server/src/services/EventStore.ts:145-147 | projecting public events drops none and projects each in place |
| EventStoreService.PublicQueryFacts | Test_NOLTE/event-service/server/src/services/EventStore.ts:136-153 | the caller's status is ignored, no DRAFT event is returned, each item projects the private query's item, and the pagination is copied |
| EventStoreService.EventStore.constructor | Test_NOLTE/event-service/server/src/services/EventStore.ts:29 | the store starts empty |
| EventStoreService.EventStore.Create | Test_NOLTE/event-service/server/src/services/EventStore.ts:34-43 | stores the given fields under the fresh id with the new timestamp; a fresh id is appended to the insertion order |
| EventStoreService.EventStore.FindById | Test_NOLTE/event-service/server/src/services/EventStore.ts:48-50 | returns the stored event, or None exactly when the id is unknown |
| EventStoreService.EventStore.Update | Test_NOLTE/event-service/server/src/services/EventStore.ts:55-70 | an unknown id changes nothing; otherwise status and notes are overwritten, undefined included, the timestamp is refreshed, and no other record changes |
| EventStoreService.EventStore.Query | Test_NOLTE/event-service/server/src/services/EventStore.ts:75-131 | returns the filtered, sorted, paginated result over the stored events in insertion order, and changes nothing |
| EventStoreService.EventStore.QueryPublic | Test_NOLTE/event-service/server/src/services/EventStore.ts:136-153 | returns the public query's result, projected item by item, and changes nothing |
| EventStoreService.EventStore.Clear | Test_NOLTE/event-service/server/src/services/EventStore.ts:165-167 | the store is emptied |
| SummaryCacheService.KeyFields | Test_NOLTE/event-service/server/src/services/SummaryCache.ts:22-26 | projections equal on title, location, start and end share a key, whatever their id, status or upcomingness |
| SummaryCacheService.KeyTextSplits | Test_NOLTE/event-service/server/src/services/SummaryCache.ts:24 | when no field contains `\|`, the hashed text splits back into the four fields |
| SummaryCacheService.KeyTextCollides | Test_NOLTE/event-service/server/src/services/SummaryCache.ts:24 | two projections with different titles can share the hashed text, and so the key |
| SummaryCacheService.StaleSummaryShared | Test_NOLTE/event-service/server/src/services/SummaryCache.ts:23-25 | a CANCELLED projection and the same projection PUBLISHED and upcoming share a key but not a summary |
| SummaryCacheService.Lookup | Test_NOLTE/event-service/server/src/services/SummaryCache.ts:31-47 | a hit exactly when the key is stored and its age is at most the one-hour TTL; a hit returns the stored summary |
| SummaryCacheService.AfterLookup | Test_NOLTE/event-service/server/src/services/SummaryCache.ts:40-44 | a read deletes the key exactly when its entry has expired, and changes nothing else |
| SummaryCacheService.SetThenGet | Test_NOLTE/event-service/server/src/services/SummaryCache.ts:31-58 | a summary set at `t` is read back at any time up to `t` + TTL inclusive, and not after |
| SummaryCacheService.ExpiredStaysGone | Test_NOLTE/event-service/server/src/services/SummaryCache.ts:40-44 | after a miss has dropped an entry, later reads miss too |
| SummaryCacheService.SummaryCache.constructor | Test_NOLTE/event-service/server/src/services/SummaryCache.ts:16 | the cache starts empty |
| SummaryCacheService.SummaryCache.Get | Test_NOLTE/event-service/server/src/services/SummaryCache.ts:31-47 | returns the lookup result and leaves the cache with an expired entry deleted |
| SummaryCacheService.SummaryCache.Set | Test_NOLTE/event-service/server/src/services/SummaryCache.ts:52-58 | stores or overwrites the entry, stamped with `now` |
| SummaryCacheService.SummaryCache.Invalidate | Test_NOLTE/event-service/server/src/services/SummaryCache.ts:63-66 | removes that key only |
| SummaryCacheService.SummaryCache.Clear | Test_NOLTE/event-service/server/src/services/SummaryCache.ts:71-73 | the cache is emptied |
| SummaryCacheService.SummaryCache.GetStats | Test_NOLTE/event-service/server/src/services/SummaryCache.ts:78-83 | size is the number of entries and the keys are the stored keys |
| SummaryGenerator.DurationRule | Test_NOLTE/event-service/server/src/services/AISummaryGenerator.ts:16 | the duration is the least whole number of hours covering the event; it is positive when the end is after the start |
| SummaryGenerator.StatusRemark | Test_NOLTE/event-service/server/src/services/AISummaryGenerator.ts:30-34 | the cancelled remark exactly for CANCELLED; otherwise the upcoming remark exactly when upcoming, else the past remark |
| SummaryGenerator.SummaryInputs | Test_NOLTE/event-service/server/src/services/AISummaryGenerator.ts:13-44 | the text depends on title, location, times, status and upcomingness only, not on the id |
| SummaryGenerator.SummaryReflectsStatus | Test_NOLTE/event-service/server/src/services/AISummaryGenerator.ts:30-41 | events alike except in their closing remark get different texts |
| SummaryGenerator.ChunkSummary | Test_NOLTE/event-service/server/src/services/AISummaryGenerator.ts:49-63 | the loop returns the chunking of the text, each chunk taking 2 + (i mod 4) words from word index i |
| SummaryGenerator.ChunkingRejoins | Test_NOLTE/event-service/server/src/services/AISummaryGenerator.ts:49-63 | the chunks joined with single spaces give back the text exactly, empty words from doubled spaces included |
| SummaryGenerator.ChunkingNonEmpty | Test_NOLTE/event-service/server/src/services/AISummaryGenerator.ts:50-54 | every text yields at least one chunk |
| SummaryGenerator.ChunkLayout | Test_NOLTE/event-service/server/src/services/AISummaryGenerator.ts:54-60 | chunk k starts at word 0, 2, 6, 10, ...; it has 2 words for the first chunk and 4 for every later one, except the last, which has 1 to that many; the chunks cover all the words |
| SummaryGenerator.ChunkExtent | Test_NOLTE/event-service/server/src/services/AISummaryGenerator.ts:56-57 | every chunk has between one and four words, and exactly its planned count unless it is the last |
| SummaryGenerator.ChunkDelay | Test_NOLTE/event-service/server/src/services/AISummaryGenerator.ts:75 | the delay is 50 + (length mod 10)·10, a multiple of ten between 50 and 140 |
| SummaryGenerator.Delayed | Test_NOLTE/event-service/server/src/services/AISummaryGenerator.ts:73-78 | one fragment per chunk, in order, each with its chunk's delay |
| SummaryGenerator.StreamSummary | Test_NOLTE/event-service/server/src/services/AISummaryGenerator.ts:69-79 | yields exactly the chunks of the event's summary, in order, each with its delay |
| ServerHttp.IntParam | Test_NOLTE/event-service/server/src/routes/events.ts:148-149 | the parsed number when it parses and is not 0, the default otherwise |
| ServerHttp.TrimAll | Test_NOLTE/event-service/server/src/routes/events.ts:153 | every item trimmed, in place |
| ServerHttp.ListParam | Test_NOLTE/event-service/server/src/routes/events.ts:152-158 | absent exactly for a missing or empty parameter; otherwise each comma-separated piece, trimmed |
| ServerHttp.ListParamRoundTrip | Test_NOLTE/event-service/server/src/routes/events.ts:152-158 | a comma-joined list of comma-free, trimmed items is parsed back into the same list |
| EventRoutes.InitialStatus | Test_NOLTE/event-service/server/src/routes/events.ts:45 | the requested status when truthy, DRAFT otherwise |
| EventRoutes.CreatedData | Test_NOLTE/event-service/server/src/routes/events.ts:40-48 | the stored fields are the request's, with parsed times, start before end and start not in the past |
| EventRoutes.CreateEvent | Test_NOLTE/event-service/server/src/routes/events.ts:20-60 | any validation error gives 400 with the errors and stores nothing; otherwise the event is stored under the new id and returned with 201, a fresh id going last in the insertion order and a reused one keeping its place |
| EventRoutes.PatchErrors | Test_NOLTE/event-service/server/src/routes/events.ts:82-94 | no errors without a status; an unknown status gets only the membership error; the transition is checked only when the status is a member |
| EventRoutes.PatchUpdate | Test_NOLTE/event-service/server/src/routes/events.ts:69-72 | both keys are always set: the notes as given and the status parsed or undefined |
| EventRoutes.CancelledEscape | Test_NOLTE/event-service/server/src/routes/events.ts:83 | a notes-only PATCH on a CANCELLED event passes and undefines the status, after which any status PATCH passes, though none passes from CANCELLED directly |
| EventRoutes.InvalidationKeyEvent | Test_NOLTE/event-service/server/src/routes/events.ts:119-127 | the projection built for invalidation carries the updated event's title, location and times |
| EventRoutes.UpdateEvent | Test_NOLTE/event-service/server/src/routes/events.ts:66-136 | an unknown id gives 404 before any check; any error gives 400 and no change; otherwise the record is updated and returned with 200, and the cache key is dropped exactly when a status was given and differs from the stored one |
| EventRoutes.ListQuery | Test_NOLTE/event-service/server/src/routes/events.ts:144-168 | dates pass unchanged, locations and status are comma-split and trimmed, page defaults to 1 and limit to 20 |
| EventRoutes.ListEvents | Test_NOLTE/event-service/server/src/routes/events.ts:142-175 | 200 with the store's query result for those parameters |
| PublicRoutes.PublicListQuery | Test_NOLTE/event-service/server/src/routes/public.ts:21-39 | dates pass unchanged, locations are comma-split and trimmed, no status is passed, page defaults to 1 and limit to 20 |
| PublicRoutes.PublicListPaging | Test_NOLTE/event-service/server/src/routes/public.ts:19-46 | the list reports the parsed page and the limit capped at 100, and holds no DRAFT event |
| PublicRoutes.ListPublicEvents | Test_NOLTE/event-service/server/src/routes/public.ts:19-46 | 200 with the public query result for those parameters |
| PublicRoutes.ChunkEvents | Test_NOLTE/event-service/server/src/routes/public.ts:96 | one `data:` event per chunk, each chunk followed by a space |
| PublicRoutes.AccumulatedJoin | Test_NOLTE/event-service/server/src/routes/public.ts:95 | the accumulated text is the chunks joined by spaces, plus one trailing space |
| PublicRoutes.CachedSummaryText | Test_NOLTE/event-service/server/src/routes/public.ts:89-100 | the text cached after a full stream is the trimmed generated summary |
| PublicRoutes.RelayChunks | Test_NOLTE/event-service/server/src/routes/public.ts:89-97 | one write per chunk yielded; a generator failure leaves nothing to cache, and a full run accumulates every chunk |
| PublicRoutes.StreamMiss | Test_NOLTE/event-service/server/src/routes/public.ts:88-109 | MISS headers; after a failure, the chunks so far and the error event, cache unchanged; otherwise every chunk, the done event, and the trimmed summary cached |
| PublicRoutes.StreamEventSummary | Test_NOLTE/event-service/server/src/routes/public.ts:52-116 | unknown id and non-public event give their 404s with the cache untouched; a HIT writes the cached text and the done event; a MISS streams as above; the cache header says HIT exactly when the read hit |
| BackendTransitions.CheckTransition | event-service/backend/src/validators/eventValidators.ts:34-51 | the error is present exactly when the transition is invalid, and reads "Cannot transition from X to Y" |
| BackendTransitions.BlacklistRule | event-service/backend/src/validators/eventValidators.ts:38-49 | refused exactly for PUBLISHED to DRAFT, CANCELLED to DRAFT and CANCELLED to PUBLISHED; DRAFT may go anywhere; every self-transition passes |
| BackendTransitions.RulesDifferOnlyOnSelfTransitions | event-service/backend/src/validators/eventValidators.ts:38-51 | the two services' transition rules agree exactly on the pairs whose statuses differ |
| CacheKeys.SortByKeyFacts | event-service/backend/src/utils/hash.ts:4-6 | the canonical object holds exactly the input's entries, with keys in ascending order |
| CacheKeys.AscendingUnique | event-service/backend/src/utils/hash.ts:4-6 | two key-ascending lists of the same entries are equal |
| CacheKeys.KeyOrderIndependent | event-service/backend/src/utils/hash.ts:3-12 | inputs with the same key/value pairs in any insertion order get the same canonical form and the same key |
| BackendCache.Read | event-service/backend/src/services/CacheService.ts:6-8 | the stored value, or None when the key is absent or holds the empty string |
| BackendCache.WithoutPattern | event-service/backend/src/services/CacheService.ts:22-28 | keeps exactly the entries whose key does not contain the pattern, with their values |
| BackendCache.SetThenRead | event-service/backend/src/services/CacheService.ts:6-12 | a set value is read back, except that the empty string reads as null; other keys are unaffected |
| BackendCache.EmptyPatternClears | event-service/backend/src/services/CacheService.ts:22-28 | the empty pattern removes every entry |
| BackendCache.CacheService.constructor | event-service/backend/src/services/CacheService.ts:4 | the cache starts empty |
| BackendCache.CacheService.Get | event-service/backend/src/services/CacheService.ts:6-8 | returns the read of the key |
| BackendCache.CacheService.Set | event-service/backend/src/services/CacheService.ts:10-12 | stores or overwrites; nothing expires |
| BackendCache.CacheService.Delete | event-service/backend/src/services/CacheService.ts:14-16 | removes that key only |
| BackendCache.CacheService.InvalidatePattern | event-service/backend/src/services/CacheService.ts:22-28 | the loop leaves exactly the entries whose key does not contain the pattern |
| PublicController.ParseQueryInt | event-service/backend/src/controllers/PublicEventController.ts:16-17 | an absent value is NaN; a single value is parsed as is |
| PublicController.QueryGet | event-service/backend/src/controllers/PublicEventController.ts:13 | the value under the key, None exactly when absent |
| PublicController.PageNumberParam | event-service/backend/src/controllers/PublicEventController.ts:16 | the parsed page when it parses and is not 0, else 1 |
| PublicController.PageLimitParam | event-service/backend/src/controllers/PublicEventController.ts:17 | the parsed limit, or 20 when it is NaN or 0, capped at 100 |
| PublicController.ListPublic | event-service/backend/src/controllers/PublicEventController.ts:11-23 | every key but page and limit is passed on unchanged as a filter, with the parsed page and limit |
| PublicController.SearchPublic | event-service/backend/src/controllers/PublicEventController.ts:26-48 | a missing, empty or repeated `q` is exactly the 400 MISSING_QUERY case; otherwise the other filters are passed on with the status forced to "PUBLISHED,CANCELLED" |
| PublicController.PublicFormat | event-service/backend/src/controllers/PublicEventController.ts:52-60 | the seven public fields are copied, and `isUpcoming` is start > now |
| PublicController.SearchResponse | event-service/backend/src/controllers/PublicEventController.ts:50-62 | the body holds every result, mapped in order, under `events`, with the pagination copied |
| PublicController.SummaryKeyFields | event-service/backend/src/controllers/PublicEventController.ts:82-88 | events equal on id, title, location, start and end share a key, whatever their status |
| PublicController.SummaryKeyOrder | event-service/backend/src/controllers/PublicEventController.ts:82-88 | listing the five fields in reverse order gives the same key |
| PublicController.StaleSummaryAfterCancel | event-service/backend/src/controllers/PublicEventController.ts:82-96 | cancelling a PUBLISHED event keeps its key but changes its text, so the cached text goes stale |
| PublicController.ChunkTextsLayout | event-service/backend/src/controllers/PublicEventController.ts:108-118 | chunk k holds the three words from 3k on (fewer at the end), plus a space, and there are just enough chunks to cover the words |
| PublicController.ChunksRejoinSummary | event-service/backend/src/controllers/PublicEventController.ts:105-118 | the streamed chunks, end to end, are the summary followed by one space |
| PublicController.StreamPlanShape | event-service/backend/src/controllers/PublicEventController.ts:108-119 | one write per chunk, in order, then the done message |
| PublicController.TicksRun | event-service/backend/src/controllers/PublicEventController.ts:121-123 | a close stops the timer after that many ticks; without a close every tick runs |
| PublicController.StreamWords | event-service/backend/src/controllers/PublicEventController.ts:105-123 | the writes are the prefix of the plan that runs before the client closes, and the response ends exactly when the whole plan was written |
| PublicController.ServedSummary | event-service/backend/src/controllers/PublicEventController.ts:90-96 | the cached text on a HIT, the generated one on a MISS |
| PublicController.GetEventSummary | event-service/backend/src/controllers/PublicEventController.ts:70-127 | a missing or DRAFT event gets a 404 with the cache untouched; otherwise HIT exactly for a truthy cached value; a MISS caches the generated text before streaming; the writes are the plan's prefix up to the close |
| UploadValidators.ValidateImageFile | event-service/backend/src/validators/uploadValidators.ts:11-27 | valid exactly for one of the four types and at most 5 MiB; a wrong type is reported first, an oversized image as "File too large. Maximum size: 5MB"; the error is present exactly when invalid |
| ErrorHandler.HandleError | event-service/backend/src/middleware/errorHandler.ts:3-35 | exactly "Event not found" is a 404; otherwise a message containing "Cannot transition" is a 400; anything else is a 500 that never repeats the message |
| ErrorHandler.TransitionErrorsAreBadRequests | event-service/backend/src/middleware/errorHandler.ts:20-27 | every refusal of the backend's transition rule, once thrown, becomes a 400 INVALID_TRANSITION with its message |
| BackendAuth.ExpectedToken | event-service/backend/src/middleware/auth.ts:5 | ADMIN_TOKEN when set and non-empty, else "admin-token-123" |
| BackendAuth.RequireAuth | event-service/backend/src/middleware/auth.ts:3-17 | passes exactly for the header `Bearer ` followed by the expected token; anything else is 401 UNAUTHORIZED |
| BackendAuth.GuardsAgree | event-service/backend/src/middleware/auth.ts:7 | with ADMIN_TOKEN unset the backend's guard and the in-memory server's accept the same headers |
| JwtAuth.UserOf | event-service/backend/src/middleware/jwtAuth.ts:37-41 | the user is the payload's id, e-mail and role |
| JwtAuth.BearerToken | event-service/backend/src/middleware/jwtAuth.ts:33 | the token is the header with its `Bearer ` prefix removed |
| JwtAuth.RequireJwtAuth | event-service/backend/src/middleware/jwtAuth.ts:21-51 | no `Bearer ` header gives 401 UNAUTHORIZED; a token that fails verification gives 401 INVALID_TOKEN; otherwise the payload's user passes |
| JwtAuth.JwtPassesExactly | event-service/backend/src/middleware/jwtAuth.ts:21-51 | passes exactly for a bearer header whose token verifies; every refusal is a 401 |
| JwtAuth.OptionalJwtAuth | event-service/backend/src/middleware/jwtAuth.ts:54-75 | always passes on; it sets the user exactly when a bearer token verifies |
| JwtAuth.RequireRole | event-service/backend/src/middleware/jwtAuth.ts:78-100 | passes exactly for a user with a listed role; no user gives 401, and an unlisted role gives 403 FORBIDDEN |
| JwtAuth.HybridToken | event-service/backend/src/middleware/jwtAuth.ts:128 | strips a `Bearer ` prefix, and otherwise takes the whole header as the token |
| JwtAuth.RequireHybridAuth | event-service/backend/src/middleware/jwtAuth.ts:103-146 | a missing header gives 401; the legacy token passes as the legacy admin; any other header is verified as a JWT |
| JwtAuth.HybridAcceptsLegacy | event-service/backend/src/middleware/jwtAuth.ts:115-125 | every header the legacy guard accepts passes the hybrid guard as the legacy admin, without consulting verification, and satisfies an ADMIN role check |
| ClientApi.AuthHeader | Test_NOLTE/event-service/client/lib/api.ts:58-60 | the bearer header is present exactly when a token is |
| ClientApi.StatusNames | Test_NOLTE/event-service/client/lib/api.ts:106 | each status by its name, in order |
| ClientApi.BuildQuery | Test_NOLTE/event-service/client/lib/api.ts:102-108 | the appends collect exactly the truthy dates, the present lists joined with commas, and the truthy numbers, in that order |
| ClientApi.QueryValue | Test_NOLTE/event-service/server/src/routes/events.ts:144-149 | the value the server reads is one appended under that name, and None means no pair has that name |
| ClientApi.QueryString | Test_NOLTE/event-service/client/lib/api.ts:110 | the encoded query is empty exactly when nothing was appended |
| ClientApi.ListPath | Test_NOLTE/event-service/client/lib/api.ts:110-113 | the path has a `?` and the query exactly when something was appended |
| ClientApi.ClientQueryFilters | Test_NOLTE/event-service/client/lib/api.ts:103-105 | the server reads back each truthy date, and the joined location list whenever one is present |
| ClientApi.ClientQueryPaging | Test_NOLTE/event-service/client/lib/api.ts:106-108 | the server reads back the joined status list (on `getEvents` only) and the truthy page and limit in decimal |
| ClientApi.ClientQueryReachesServer | Test_NOLTE/event-service/client/lib/api.ts:94-114 | the query the admin list route runs holds the client's truthy dates, its lists item for item, and its truthy page and limit, with the server's defaults otherwise |
| ClientApi.ClassifyLine | Test_NOLTE/event-service/client/lib/api.ts:185-200 | an emitted chunk is never empty; a finishing line either completes or fails the stream |
| ClientApi.ClassifyLineRules | Test_NOLTE/event-service/client/lib/api.ts:186-198 | a `data: ` line emits its trimmed rest exactly when that is non-empty; otherwise `event: done` completes and `event: error` fails, in that order of precedence |
| ClientApi.LineCallbacksShape | Test_NOLTE/event-service/client/lib/api.ts:185-200 | within one read, chunks come first and a finishing line is the last callback |
| ClientApi.ReadCallbacksShape | Test_NOLTE/event-service/client/lib/api.ts:174-201 | over all reads, the callbacks are chunks followed by exactly one completion or error |
| ClientApi.SummaryCallbacksShape | Test_NOLTE/event-service/client/lib/api.ts:145-201 | a non-OK response gives exactly one error, and a stream gives chunks then one terminal call |
| ClientApi.ReadLines | Test_NOLTE/event-service/client/lib/api.ts:185-200 | the inner loop calls back for each line and leaves at the first line that ends the stream |
| ClientApi.ConsumeSummary | Test_NOLTE/event-service/client/lib/api.ts:153-201 | the callbacks are those of the response: chunks, then exactly one terminal call |
| ClientApi.DataLineRead | Test_NOLTE/event-service/client/lib/api.ts:186-190 | a data line drops the server's trailing space and emits the trimmed chunk |
| ClientApi.DoneLine | Test_NOLTE/event-service/client/lib/api.ts:191-194 | every line starting `event: done` completes |
| ClientApi.ErrorLine | Test_NOLTE/event-service/client/lib/api.ts:195-198 | every line starting `event: error` fails with the client's own message |
| ClientApi.ClientReadsServerStream | Test_NOLTE/event-service/client/lib/api.ts:174-201 | reading what the in-memory server streams, one event per read, gives each chunk trimmed, then completion after the done event or failure after the error event |

## Left out

- Network, HTTP framing and Express routing are not modelled. Handlers take their inputs as values and return the response as a value.
- The clock, the uuid generator and the time of the cache write are parameters.
- Parsing and formatting functions are opaque function parameters: `new Date(text)`, `parseInt`, `toLocaleDateString` and `toLocaleTimeString`. Their own behaviour is not modelled.
- SHA-256, `JSON.stringify`, URL encoding and JWT verification are opaque function parameters.
- `CacheKeys.GenerateCacheKey` does not model that `JSON.stringify` writes integer-like keys first. The five keys it hashes are not integer-like.
- Query-string parsing and URL decoding are treated as handing each appended pair to the server unchanged (`ClientApi.ParamsOf`).
- `Text.LexLess` compares code points, while JavaScript compares UTF-16 code units. They agree below U+10000.
- `EventModel.TitleRule` counts characters as code points, while `length` counts UTF-16 code units. They agree below U+10000.
- `SummaryGenerator.ChunkDelay` takes the chunk length in code points, while `chunk.length` counts UTF-16 code units. The delays differ for a chunk holding a character above U+FFFF.
- A POST whose title is missing makes the source throw inside `trim` and answer 500. The model requires a title string.
- The 500 answers of the routes' `catch` blocks are not modelled. The only throw the model could meet is the repeated list parameter described in the next line.
- `ServerHttp.QueryParams` holds one string per query parameter, so the in-memory server's routes never see a repeated parameter. In the source, a repeated `locations` or `status` reaches the handler as an array, which has no `split`. The list routes then throw (events.ts:153 and 157, public.ts:29) and answer the `catch` block's 500. A repeated `page` or `limit` is read by `parseInt` as its comma-joined text.
- A PATCH whose status is the empty string is treated like one without a status. Both are falsy and skip the check. The difference is whether the stored status becomes "" or undefined.
- The second 404 of the PATCH route is not modelled: `update` cannot miss right after `findById` found the id.
- Notifications, status-change logging and console output are not modelled.
- `EventStore.getAll` has no separate member. It is `EventStoreService.EventStore.Records`.
- The backend's `findPublic` and `searchEvents` are database calls. The model stops at the call the controller makes (`PublicController.Delegation`).
- The zod schemas and the validation middleware of the backend are not modelled.
- `SummaryCacheService.SummaryCache.GetStats` returns the keys as a set, so their order is not modelled.
- `PublicRoutes.StreamEventSummary` models a generator failure as the input `failAt`. The generator itself never throws. A client disconnect is not modelled, since the route never observes it.
- `PublicController.GetEventSummary` models the timer as a sequence of ticks and the client's close as the input `closeAfter`. Timing is not modelled.
- The delays between streamed fragments are recorded but never waited for.
- `ClientApi.ClientReadsServerStream` assumes each read delivers one whole event. Reads that split or merge events are covered only by `ClientApi.ReadCallbacksShape`.
- The client's missing-reader error, a read that throws, and the returned canceller are not modelled.
- The client's `request` helper beyond its bearer header is not modelled, nor its JSON error parsing.
