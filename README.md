# Nelson-GPT: chat store, offline cache and profile statistics in Dafny

This project models the stateful core of the Nelson-GPT progressive web app:

- **The chat-session store** (`src/store/chatStore.ts`). `ChatStore.Store` is a class with the
  store's four fields: `chats` (newest first), `currentChatId` (nullable), `showWelcome` and
  `selectedMode`. Each mutator is a method that replaces those fields. The per-chat work done
  with `filter`, `map` with object spread, `find`, and the title's `split('\n')[0].slice(0, 50)`
  is written as pure functions (`WithoutChat`, `MapMatching`/`ApplyEdit`, `FindChat`,
  `DeriveTitle`). Lemmas then state what each mutator changes and what it leaves alone.
  `Date.now()` is a `now` parameter.
- **The service worker** (`public/sw.js`). `OfflineCache.Worker` holds the cache storage: the
  cache names in creation order and each cache's entries by URL. It also counts the calls to
  `skipWaiting` and the network requests it makes. Install, activate, fetch and message are
  methods. The network is an input (`Fetched(response)` or `NetworkFailure`), and so is
  whether the cache accepts a write (`writeAccepted`). `caches.match` is a loop over the caches
  in order (`Match`, specified by `Lookup`). Install's `cache.addAll` is all-or-nothing, as in
  the addAll algorithm of the W3C Service Workers specification (section 5.4.4).
- **The profile statistics** (`src/components/ProfileScreen.tsx`). These are the total message
  count (a left `reduce`) and the per-mode chat counts, related to the store's operations.

Notes on the code's behaviour:

- Chat identifiers are `"chat-" + now` and are not checked for uniqueness.
  `ClockCollisionDuplicatesId` shows the duplicate a repeated clock value produces.
  `CreateKeepsIdsUnique` shows that uniqueness holds while the clock moves forward.
- `updateMessage` refreshes the matching chat's `updatedAt` even when no message carries the
  given message id (`EditRefreshesChat`).
- Seeding on install is all-or-nothing: one failed resource means none of them is cached.
- The store keeps its state in memory only. It does not persist chats, does not limit their
  number, and holds no dark-mode or current-screen field.

## Model

| member | source | states |
|---|---|---|
| ChatStore.Decimal | src/store/chatStore.ts:55 | the clock in a chat id is written as decimal digits only: one digit exactly for 0-9, and otherwise several digits with no leading zero |
| ChatStore.ChatId | src/store/chatStore.ts:55 | every chat id starts with `chat-` followed by at least one character |
| ChatStore.ParseDecimalInvertsDecimal | src/store/chatStore.ts:55 | the decimal rendering of the clock in a chat id reads back to the same number |
| ChatStore.ChatIdInjective | src/store/chatStore.ts:55 | two `chat-${now}` ids are equal exactly when the clock values are equal |
| ChatStore.ClockCollisionDuplicatesId | src/store/chatStore.ts:54-69 | if a chat already carries `chat-${now}`, creating a chat at `now` leaves two chats with one id; createChat does not prevent it |
| ChatStore.CreateKeepsIdsUnique | src/store/chatStore.ts:54-69 | if every existing id came from an earlier clock value and ids were unique, they stay unique after the new chat is prepended |
| ChatStore.NewChat | src/store/chatStore.ts:56-63 | the new chat's id is `chat-` plus the clock; it is titled "Untitled", has no messages, has the given mode, and was created and updated at the clock value |
| ChatStore.FirstLine | src/store/chatStore.ts:109 | `split('\n')[0]` is a prefix of the content, holds no line feed, and ends at the first line feed or at the end of the content |
| ChatStore.Truncate | src/store/chatStore.ts:109 | `slice(0, 50)` is a prefix of at most 50 characters, the whole string when it is shorter |
| ChatStore.DeriveTitle | src/store/chatStore.ts:108-110 | the derived title is the longest prefix of the content that has no line feed and at most 50 characters |
| ChatStore.TitleIsShortFirstLine | src/store/chatStore.ts:108-110 | a first line of at most 50 characters followed by a line feed becomes the whole title, whatever follows |
| ChatStore.CroupTitle | src/store/chatStore.ts:108-110 | the content "What is croup?\nDetails..." gives the title "What is croup?" |
| ChatStore.FirstIndexOf | src/store/chatStore.ts:97 | the index `find` stops at: every earlier chat has another id, and the chat found has the id |
| ChatStore.FindChat | src/store/chatStore.ts:97 | `find` gives None exactly when no chat has the id, and otherwise the first chat with it |
| ChatStore.WithoutChat | src/store/chatStore.ts:74 | the filter keeps no chat with the deleted id, keeps every chat with another id, and never grows the list |
| ChatStore.WithoutAbsentChat | src/store/chatStore.ts:74 | deleting an id that no chat carries leaves the list unchanged |
| ChatStore.WithoutChatConcat | src/store/chatStore.ts:74 | the filter works piece by piece over a concatenation, so survivors keep their relative order |
| ChatStore.WithoutChatMultiplicity | src/store/chatStore.ts:74 | every chat with another id survives as often as it occurred; chats with the deleted id occur zero times |
| ChatStore.WithoutChatKeepsUnique | src/store/chatStore.ts:74 | deleting keeps ids unique |
| ChatStore.DeletedChatNotFound | src/store/chatStore.ts:72-78 | after a delete, looking up the deleted id finds nothing |
| ChatStore.EditMessages | src/store/chatStore.ts:124-128 | same length; each message with the id gets the new content and timestamp; every other message is unchanged |
| ChatStore.MapMatching | src/store/chatStore.ts:80-134 | the `map` of rename, add and update has the same length; each chat with the id is edited and every other chat is unchanged, in place |
| ChatStore.AppendedChat | src/store/chatStore.ts:105-112 | the message is appended last; the title is derived from it only when the chat had no messages; `updatedAt` becomes now |
| ChatStore.EditedChat | src/store/chatStore.ts:120-130 | updateMessage on a matching chat replaces its messages by the message map and keeps its title |
| ChatStore.SecondMessageKeepsTitle | src/store/chatStore.ts:108-110 | a second addMessage to the same id keeps the ids and leaves every title as the first addMessage set it |
| ChatStore.EditKeepsMessageIdentity | src/store/chatStore.ts:124-128 | updateMessage keeps the message count and order, and each message's id, role and citations |
| ChatStore.EditRefreshesChat | src/store/chatStore.ts:120-130 | updateMessage sets the chat's `updatedAt` even when no message matches, and then the messages are unchanged |
| ChatStore.ApplyEdit | src/store/chatStore.ts:80-134 | rename, add and update never change a chat's id, mode or creation time; each sets `updatedAt` to its clock value and adds at most one message; a rename keeps the messages, and an update keeps the title |
| ChatStore.MapMatchingKeepsIds | src/store/chatStore.ts:80-134 | rename, add and update keep the list of ids, and so keep ids unique |
| ChatStore.MapMatchingAbsent | src/store/chatStore.ts:80-134 | rename, add and update with an id no chat carries change nothing |
| ChatStore.Store.constructor | src/store/chatStore.ts:48-52 | initial state: no chats, no current chat, welcome shown, academic mode |
| ChatStore.Store.CreateChat | src/store/chatStore.ts:54-70 | returns `chat-${now}`; prepends one chat titled "Untitled" with no messages, the given mode and both timestamps now; old chats follow in order; the new chat becomes current; welcome is hidden; the mode is unchanged |
| ChatStore.Store.DeleteChat | src/store/chatStore.ts:72-78 | chats become the filter; deleting the current chat clears the pointer and shows welcome; otherwise the pointer is kept and welcome is hidden |
| ChatStore.Store.RenameChat | src/store/chatStore.ts:80-88 | only matching chats get the new title and `updatedAt`; the other fields are unchanged |
| ChatStore.Store.SetCurrentChat | src/store/chatStore.ts:90-92 | stores the id without checking it exists and hides welcome; chats and mode are unchanged |
| ChatStore.Store.CurrentChat | src/store/chatStore.ts:94-99 | None exactly when the pointer is null, empty or dangling; otherwise the first chat with that id; reads only |
| ChatStore.Store.AddMessage | src/store/chatStore.ts:101-116 | chats become the append map; the pointer, welcome flag and mode are unchanged |
| ChatStore.Store.UpdateMessage | src/store/chatStore.ts:118-134 | chats become the message-edit map; the pointer, welcome flag and mode are unchanged |
| ChatStore.Store.SetShowWelcome | src/store/chatStore.ts:136-138 | replaces only the welcome flag |
| ChatStore.Store.SetSelectedMode | src/store/chatStore.ts:140-142 | replaces only the selected mode |
| ProfileStats.ReduceMessages | src/components/ProfileScreen.tsx:27 | the left `reduce` from an accumulator equals the accumulator plus the sum of message counts |
| ProfileStats.TotalMessages | src/components/ProfileScreen.tsx:27 | `totalMessages` is the sum over all chats of their message counts, so it is never negative |
| ProfileStats.OfMode | src/components/ProfileScreen.tsx:28-29 | the mode filter keeps every chat of that mode exactly as often as it occurs, and no other chat |
| ProfileStats.ModeCount | src/components/ProfileScreen.tsx:28-29 | a per-mode count is at most the number of chats; it is zero for no chats, and one or zero for a single chat as its mode matches or not |
| ProfileStats.ModeCountSplits | src/components/ProfileScreen.tsx:28-29 | the count of a concatenation is the sum of the counts, so each chat of the mode adds exactly one |
| ProfileStats.ModesPartitionChats | src/components/ProfileScreen.tsx:28-29 | the academic count plus the clinical count equals the number of chats |
| ProfileStats.AcademicChats | src/components/ProfileScreen.tsx:28 | `academicChats` is the number of chats not counted as clinical |
| ProfileStats.ClinicalChats | src/components/ProfileScreen.tsx:29 | `clinicalChats` is the number of chats not counted as academic |
| ProfileStats.EmptyHistoryStats | src/components/ProfileScreen.tsx:27-29 | with no chats, all three figures are zero |
| ProfileStats.PercentDivisor | src/components/ProfileScreen.tsx:76 | `Math.max(chats.length, 1)` is at least 1 and equals the chat count when there are chats |
| ProfileStats.AppendAddsToTotal | src/components/ProfileScreen.tsx:27 | addMessage raises `totalMessages` by the number of chats carrying the id |
| ProfileStats.AppendAddsToSum | src/components/ProfileScreen.tsx:27 | the same for the reference sum |
| ProfileStats.CreateCountsNewChat | src/components/ProfileScreen.tsx:27-29 | createChat raises its mode's count by one and leaves `totalMessages` unchanged |
| ProfileStats.DeleteDropsMessages | src/components/ProfileScreen.tsx:27 | deleteChat removes from the total exactly the messages of the deleted chats |
| OfflineCache.OfflineResponse | public/sw.js:79-85 | the fallback is a 503 "Service Unavailable" with a `Content-Type: text/plain` header and the offline notice as its body |
| OfflineCache.Cacheable | public/sw.js:59 | a response the fetch handler would cache is never an error response, and addAll would accept it too |
| OfflineCache.Seedable | public/sw.js:15 | addAll refuses an error response and a 206, accepts only statuses in 200-299, and accepts every 200 that is not an error |
| OfflineCache.Lookup | public/sw.js:48 | `caches.match` misses exactly when no cache holds the URL; a hit is an entry of some cache |
| OfflineCache.LookupConcat | public/sw.js:48 | the search goes through caches in creation order, and an earlier hit hides every later one |
| OfflineCache.AddAll | public/sw.js:15 | `addAll` has a batch to write exactly when every request is fetched with an acceptable response; the batch holds all of those responses and nothing else |
| OfflineCache.Seeded | public/sw.js:13-20 | a refused batch leaves the cache as it was; an accepted batch adds all its entries over the old ones and keeps every other entry |
| OfflineCache.InstalledBuckets | public/sw.js:11-21 | install adds CACHE_NAME if missing and leaves every other cache as it was |
| OfflineCache.InstallSeedsShell | public/sw.js:2-21 | when all five shell URLs are fetched with acceptable responses and the cache accepts the write, all five are in CACHE_NAME after install; otherwise CACHE_NAME holds what it held before |
| OfflineCache.OpenedNames | public/sw.js:67 | after `caches.open(CACHE_NAME)` the names are the old ones, in order, plus CACHE_NAME at the end if it was missing; they stay distinct |
| OfflineCache.CurrentBucket | public/sw.js:67 | the entries of CACHE_NAME are exactly what a search of that cache alone finds, and none if it does not exist |
| OfflineCache.OpenedBuckets | public/sw.js:67 | opening CACHE_NAME creates it empty if it is missing and changes no existing cache |
| OfflineCache.StoredBuckets | public/sw.js:67-70 | the write on a miss puts the response under the request URL in CACHE_NAME, creating it if needed; it keeps every other entry of CACHE_NAME and every other cache |
| OfflineCache.WithoutNameConcat | public/sw.js:28-35 | deleting a name works piece by piece over the name list, so the remaining caches keep their creation order |
| OfflineCache.WithoutName | public/sw.js:32 | after `caches.delete` the deleted name is gone, every other name remains, the list never grows, and names stay distinct |
| OfflineCache.Route | public/sw.js:42-89 | only GET requests are intercepted, and every answer is the cached entry, the network response, the cached root or the synthetic 503 |
| OfflineCache.RouteAnswers | public/sw.js:42-89 | a non-GET is not intercepted and every GET is answered; a hit is served from the cache; a miss answered by the network is served that response unchanged; on network failure the cached root is served, or the 503 if there is none |
| OfflineCache.StoredResponseIsFound | public/sw.js:63-70 | after a miss stores a response and the cache accepts the write, the next lookup of that URL is a hit on it |
| OfflineCache.UnchangedLookup | public/sw.js:48 | a lookup depends only on the caches it names |
| OfflineCache.OnlyCurrentLeft | public/sw.js:26-36 | once only CACHE_NAME can remain, the name list is `[CACHE_NAME]` or empty |
| OfflineCache.Worker.Match | public/sw.js:48-53 | the loop over the caches returns the first entry for the URL in creation order |
| OfflineCache.Worker.OpenCurrent | public/sw.js:67-68 | `caches.open(CACHE_NAME)` creates an empty cache at the end of the list if it is missing; otherwise nothing changes |
| OfflineCache.Worker.Delete | public/sw.js:32 | removes one cache and its entries and leaves the others |
| OfflineCache.Worker.Install | public/sw.js:11-23 | opens CACHE_NAME, seeds the five shell URLs all-or-nothing (a failed fetch, a refused response or a refused write leaves the cache as it was), swallows a failure, fetches five times and calls `skipWaiting` once whatever the outcome |
| OfflineCache.Worker.Activate | public/sw.js:26-39 | every cache not named CACHE_NAME is deleted; the current cache survives with its entries |
| OfflineCache.Worker.Store | public/sw.js:67-70 | opens CACHE_NAME and, if the cache accepts the write, puts the response under the URL; a refused write leaves only the opened cache |
| OfflineCache.Worker.HandleFetch | public/sw.js:42-89 | answers as `Route` decides; goes to the network exactly once on a GET miss and never on a hit; tries to write the response to CACHE_NAME only when it is a 200 that is not an error response, and changes no cache otherwise |
| OfflineCache.Worker.HandleMessage | public/sw.js:92-96 | only a `{type: 'SKIP_WAITING'}` message calls `skipWaiting`; the caches are unchanged |

## Left out

- Clock reads: createChat reads `Date.now()` three times (`src/store/chatStore.ts:55, 61, 62`).
  renameChat (:84) and addMessage (:111) read it once per matching chat. updateMessage reads it
  once per matching message (:126) and once per matching chat (:129). The model uses one `now`
  per operation, so it assumes all those reads agree, also across several chats that share an id.
- Clock range: `now` is a natural number, so clock values before 1970 are excluded. `Decimal`
  writes no minus sign.
- Title length: `slice(0, 50)` counts UTF-16 code units. The model counts `char`s and does not
  treat surrogate pairs specially.
- `!response` in the fetch handler: `fetch` resolves only with a Response object, so the null
  branch cannot happen. A rejection is modelled as `NetworkFailure`.
- A rejection of `caches.match` itself: this platform failure is not modelled. Only a network
  rejection leads to the fallback.
- Concurrency in the service worker: overlapping interceptions, the un-awaited `cache.put`
  (which may finish after the response has been returned), response cloning and body streams
  are not modelled. One interception completes before the next begins, and responses are
  opaque values.
- `clients.claim()` on activate and the effect of `skipWaiting()` on the worker lifecycle:
  these are platform calls. The model counts the `skipWaiting` calls but does not model the
  lifecycle.
- `caches.open` failing on install or on fetch: this is not modelled. For `addAll`, a failed
  fetch, a refused response and a refused batch write are modelled. For the fetch handler's
  `cache.put`, a refused write is modelled. The reason for a refusal (quota, `Vary: *`, an
  unsupported scheme) is not modelled: it is the single `writeAccepted` input.
- URL resolution: request URLs and the cache keys `'/'`, `'/index.html'`, and so on are taken
  as already resolved against the worker's origin. Cache matching compares URLs only, not
  `Vary` headers or query options.
- The percentage values and bar widths on the profile screen: these use `Math.round` on
  floating-point division. Only the non-zero divisor is modelled.
- The simulated assistant reply in `src/components/ChatInput.tsx`: this is timer glue that
  calls addMessage twice. The store's contract covers each call.
- Rendering, animation, the install prompt, `src/utils/pwa.ts`, online/offline listeners,
  `localStorage` clearing and the build configuration are presentation or browser glue. They
  are not part of this model.
