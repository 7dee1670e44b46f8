# Campaign manager: suggestion pipeline, campaign service, campaign state, route guard

A Dafny model of the core of a campaign-management web client. It covers four parts:

- **`OpenRouter`** (`openrouter.dfy`): the service that asks a hosted language model for marketing-copy suggestions.
  - `provideSuggestion` rejects a campaign without a truthy `uuid`.
  - Otherwise it builds a fixed two-message request: a system persona, plus a user message that interpolates title, description and target groups.
  - It truncates every message to 2000 characters and fixes temperature 0.7 and `max_tokens` 1000.
  - It calls the chat transport through a retry loop. The loop retries a rate-limited (429) or network-level rejection at most three times, sleeping 1000, 2000 and 4000 ms.
  - The loop sorts the final rejection into one of three messages.
  - Finally it normalises the reply, which is either plain content or a function call whose JSON arguments are re-stringified.
  - `getSupportedModels` maps the model listing to its ids.
- **`CampaignService`** (`campaign_service.dfy`): campaign documents in the `campaigns` collection. It covers create-time validation, the owner check, the stored record, lookup by id, owner-checked update with field overlay, and the owner query.
- **`UseCampaign`** (`use_campaign.dfy`): the UI's campaign state. Four fields are assigned by four actions under a fixed loading/error discipline.
- **`Router`** (`router.dfy`): the route table and the global `beforeEach` guard.

`CampaignTypes` (`campaign_types.dfy`) holds the records (`Campaign`, the create and update payloads, `FirebaseError`). `Wrappers` (`wrappers.dfy`) holds `Option`, `Result` and JavaScript's `s || d` on strings.

How the external world enters the model:

- **Chat transport.** A total function `transport: nat -> Outcome` whose value at `k` is what the `k`-th call resolves or rejects with. A rejection without a `response` is a network failure.
- **Sleeping.** It appends the delay to a returned log `waits`. The payloads handed to the transport are returned as `sent`, so call counts and the backoff sequence are ordinary results.
- **JSON.** `JSON.parse` and `JSON.stringify` are the two functions of an injected `JsonCodec`.
- **Firestore collection.** A map from document id to record, held in a `CampaignService` object.
  - The id `addDoc` generates, the clock reading and the order a query lists documents in are parameters.
  - So is, for each backend call, the message it fails with, if it fails.
- **The user and the service, seen from the UI state.** The signed-in user id and what the awaited service call resolved or rejected with are parameters of each action.

Quirk kept as written: `createCampaign` stores the record without `uuid`, and `updateCampaign` builds its result from the stored record. So a campaign that is updated after being created here comes back without a uuid (`CampaignService.UpdateAfterCreateHasNoUuid`). When the UI state then replaces the list entry, the entry no longer answers to that uuid (`UseCampaign.ReplacedLosesUuid`).

Facts about the code that the model keeps:

- `max_tokens` is always 1000, and configured `defaultParams` are never read.
- The 401 message is "Sprawdź klucz API".
- An empty reply gives "No response from OpenAI".
- A stored document without `ownerId` belongs to no user, not even to the empty user id (`CampaignService.OwnerlessNotUpdatable`).

## Model

| member | source | states |
|---|---|---|
| `OpenRouter.NewService` | src/services/openrouter-service.ts:30-37 | the model is the configured one when non-empty, else 'gpt-3.5-turbo', so it is never empty; the API key falls back to the environment's; absent default parameters become `{}` |
| `OpenRouter.JoinSnoc` | src/services/openrouter-service.ts:54 | `Join` is `Array.prototype.join`: adding an element adds one separator and the element at the end |
| `OpenRouter.JoinEmpty` | src/services/openrouter-service.ts:54 | with a non-empty separator the join is empty exactly for `[]` and `[""]` |
| `OpenRouter.GroupsText` | src/services/openrouter-service.ts:54 | absent groups, `[]` and `[""]` give "No specific groups"; two or more groups give their ", "-join; one non-empty group gives itself |
| `OpenRouter.SanitizeContent` | src/services/openrouter-service.ts:128-130 | the result is the prefix of the content of length min(length, 2000) |
| `OpenRouter.SanitizeContentIdempotent` | src/services/openrouter-service.ts:128-130 | truncating twice equals truncating once |
| `OpenRouter.SanitizeMessages` | src/services/openrouter-service.ts:132-134 | the message count and every role are kept, and each content is sanitised |
| `OpenRouter.SanitizeMessagesIdempotent` | src/services/openrouter-service.ts:128-134 | every sanitised content is at most 2000 long, and sanitising the messages twice equals sanitising once |
| `OpenRouter.FormatMessages` | src/services/openrouter-service.ts:105-107 | the field-by-field copy equals its input |
| `OpenRouter.BuildRequest` | src/services/openrouter-service.ts:44-66 | exactly two messages with roles [system, user], each at most 2000 long; the system persona verbatim; the user message a truncation of the interpolated prompt; the configured model; `max_tokens` 1000 and temperature 0.7 |
| `OpenRouter.RequestIgnoresParams` | src/services/openrouter-service.ts:61-66 | two services with the same model send the same request, whatever their API keys and default parameters |
| `OpenRouter.RequestModel` | src/services/openrouter-service.ts:33 | the model sent is the configured non-empty one, else 'gpt-3.5-turbo' |
| `OpenRouter.TerminalMessage` | src/services/openrouter-service.ts:98-100 | status 401 gives exactly "Sprawdź klucz API", 429 exactly the rate-limit message, anything else "OpenAI error: " + the error's message |
| `OpenRouter.Retry` | src/services/openrouter-service.ts:82-103 | the loop from `attempt` on makes between 1 and 4 - `attempt` calls and sleeps once fewer than it calls |
| `OpenRouter.CallOpenAI` | src/services/openrouter-service.ts:82-103 | the `while (true)` loop over `attempt` and `delay` returns the recursive specification's result, makes its number of calls with the given payload each time, and sleeps its delays |
| `OpenRouter.RetryWaits` | src/services/openrouter-service.ts:85-95 | with `delay` doubled on every retry, the delays slept are consecutive entries of [1000, 2000, 4000] |
| `OpenRouter.RetryStops` | src/services/openrouter-service.ts:86-101 | every call before the last was a 429 or network rejection; a last resolution is returned as is; a last rejection ends the run with its terminal message, and a transient one only after the third retry |
| `OpenRouter.RetryCalls` | src/services/openrouter-service.ts:86-101 | conversely, the run makes exactly as many calls as reach the first outcome that is not a transient rejection, or four |
| `OpenRouter.RetryBounds` | src/services/openrouter-service.ts:83-97 | from the start the loop makes 1 to 4 calls, and the sleeps are the first calls - 1 entries of [1000, 2000, 4000] |
| `OpenRouter.ValidateResponse` | src/services/openrouter-service.ts:109-122 | the only error is "No response from OpenAI", raised exactly when there is no first choice message; without a function call the result is the content or ""; with one it is the stringified parse of the arguments (or of "{}"), and on a parse failure the content or "" |
| `OpenRouter.NormalizePlain` | src/services/openrouter-service.ts:121 | a reply without a function call yields its content, or "" when it has none |
| `OpenRouter.NormalizeFunctionCall` | src/services/openrouter-service.ts:112-115 | a function call whose arguments are canonical JSON yields the arguments unchanged |
| `OpenRouter.NormalizeParsed` | src/services/openrouter-service.ts:112-115 | a function call whose arguments, or "{}" in their absence, parse to a value yields that value stringified |
| `OpenRouter.NormalizeEmptyArguments` | src/services/openrouter-service.ts:114 | absent or empty arguments are read as "{}" |
| `OpenRouter.NormalizeParseFailure` | src/services/openrouter-service.ts:116-119 | arguments that fail to parse fall back to the content or "", without an error |
| `OpenRouter.ProvideSuggestion` | src/services/openrouter-service.ts:39-71 | without a truthy uuid: "Invalid campaign", no call, no sleep; otherwise 1 to 4 calls, all with the built request, sleeps on the backoff schedule, and the result of the specification `Suggest` |
| `OpenRouter.InvalidCampaignRejected` | src/services/openrouter-service.ts:40-42 | a campaign with a missing or empty uuid is rejected with "Invalid campaign" and the transport is never called |
| `OpenRouter.SuggestPayload` | src/services/openrouter-service.ts:44-68 | for a valid campaign every payload sent has the configured model, `max_tokens` 1000, two messages [system, user], each at most 2000 long; 1 to 4 calls; sleeps a prefix of [1000, 2000, 4000] |
| `OpenRouter.UnauthorizedFailsFast` | src/services/openrouter-service.ts:98 | a 401 on the first call fails after exactly one call, with no sleep, with "Sprawdź klucz API" |
| `OpenRouter.OtherStatusNotRetried` | src/services/openrouter-service.ts:92-100 | a rejection with a response whose status is neither 429 nor 401 fails after one call with "OpenAI error: " + its message |
| `OpenRouter.RateLimitExhausted` | src/services/openrouter-service.ts:92-99 | when every call is rate-limited: four calls, sleeps [1000, 2000, 4000], then the rate-limit message |
| `OpenRouter.NetworkExhausted` | src/services/openrouter-service.ts:90-100 | when every call fails at the network level: four calls, sleeps [1000, 2000, 4000], then "OpenAI error: " + the fourth error's message |
| `OpenRouter.RecoversAfterTwoNetworkFailures` | src/services/openrouter-service.ts:86-97 | two network failures and then a resolution: three calls, sleeps [1000, 2000], and the resolution's suggestion |
| `OpenRouter.SupportedModels` | src/services/openrouter-service.ts:73-80 | the model ids in listing order, or "Failed to fetch models: " + the error's message |
| `OpenRouter.ParsesSimpleResponse` | src/services/openrouter-service.spec.ts:32-37 | a reply with content "hello world" gives "hello world" after one call |
| `OpenRouter.ParsesFunctionCallArguments` | src/services/openrouter-service.spec.ts:39-44 | function-call arguments '{"foo":"bar"}' that the codec reproduces come back as the suggestion |
| `OpenRouter.RetriesOnNetworkErrors` | src/services/openrouter-service.spec.ts:46-55 | two rejections without a response and then "retry success" give that text after exactly three calls |
| `OpenRouter.ThrowsOnUnauthorized` | src/services/openrouter-service.spec.ts:57-60 | a transport always rejecting with 401 gives "Sprawdź klucz API" |
| `OpenRouter.ThrowsOnRateLimitAfterRetries` | src/services/openrouter-service.spec.ts:62-65 | a transport always rejecting with 429 gives the rate-limit message after four calls |
| `OpenRouter.FetchesSupportedModels` | src/services/openrouter-service.spec.ts:67-72 | a listing of model1 and model2 gives ["model1", "model2"] |
| `OpenRouter.PropagatesListModelsFailure` | src/services/openrouter-service.spec.ts:74-77 | a failing listing with message "fail" gives "Failed to fetch models: fail" |
| `CampaignService.CreateCheck` | src/services/campaign.service.ts:30-37 | the data is accepted exactly when title and ownerId are non-empty, groups is a list and ownerId is the user's; the owner error arises exactly when only the owner differs |
| `CampaignService.Create` | src/services/campaign.service.ts:27-59 | every failure, the validation errors included, is a FirebaseError "Failed to create campaign" / 'campaign/creation-failed' and leaves the collection unchanged; success adds exactly one record under the fresh id, stored without uuid, and returns it with uuid = that id, the input fields and createdAt == updatedAt == now |
| `CampaignService.CampaignService.CreateCampaign` | src/services/campaign.service.ts:27-59 | the method validates, then writes, and its result and new collection are those of `Create` |
| `CampaignService.WithId` | src/services/campaign.service.ts:76-79 | `{ uuid: id, ...data }` keeps every stored field, and its uuid is the id unless the record carries its own |
| `CampaignService.CampaignService.GetCampaign` | src/services/campaign.service.ts:67-87 | an absent id gives null; a present one gives the stored fields with uuid = the id (unless stored); a read failure gives "Failed to retrieve campaign" |
| `CampaignService.Overlay` | src/services/campaign.service.ts:112-122 | the update's present fields replace the stored ones; ownerId, createdAt and the uuid, or its absence, stay the stored record's; updatedAt is the new time |
| `CampaignService.OverlayThen` | src/services/campaign.service.ts:112-122 | two overlays in a row equal one overlay with the later update's fields winning |
| `CampaignService.UpdateCheck` | src/services/campaign.service.ts:102-110 | the update may proceed exactly when the record exists and its ownerId is the user's; "Campaign not found" exactly when it is absent |
| `CampaignService.Update` | src/services/campaign.service.ts:97-130 | success exactly when it is found, owned by the user and no backend call fails; every failure is "Failed to update campaign" / 'campaign/update-failed' and leaves the collection unchanged; success stores and returns the overlay, owner preserved |
| `CampaignService.CampaignService.UpdateCampaign` | src/services/campaign.service.ts:97-130 | the method's result and new collection are those of `Update` |
| `CampaignService.UpdateAfterCreateHasNoUuid` | src/services/campaign.service.ts:40-122 | updating a record this service created succeeds for its owner and returns a campaign without uuid |
| `CampaignService.OwnerlessNotUpdatable` | src/services/campaign.service.ts:102-110 | a stored document without ownerId fails every update, as unauthorized unless the read fails, whatever the user id |
| `CampaignService.OwnedIds` | src/services/campaign.service.ts:140-149 | an id is selected exactly when it is listed and its record's ownerId is the user's; the selection keeps the listing's order |
| `CampaignService.OwnedIdsDistinct` | src/services/campaign.service.ts:145-149 | a duplicate-free listing yields a duplicate-free selection |
| `CampaignService.Records` | src/services/campaign.service.ts:146-149 | each selected id becomes its stored record with that id, in order |
| `CampaignService.UserCampaignsExact` | src/services/campaign.service.ts:138-149 | over a listing of the whole collection, exactly the user's documents are returned, each once, every one owned by the user |
| `CampaignService.CampaignService.GetUserCampaigns` | src/services/campaign.service.ts:138-157 | the query returns the user's records in listing order, or "Failed to retrieve user campaigns" |
| `UseCampaign.FindIndex` | src/composables/useCampaign.ts:82 | -1 exactly when no campaign has the uuid, otherwise the position of the first one that has it |
| `UseCampaign.ReplaceFirst` | src/composables/useCampaign.ts:82-85 | length kept, only the first match replaced, every other element unchanged, nothing changed without a match |
| `UseCampaign.ReplacedLosesUuid` | src/composables/useCampaign.ts:82-85 | after replacing with a campaign lacking the uuid, the next lookup of that uuid finds nothing or a later entry |
| `UseCampaign.UpdateCurrent` | src/composables/useCampaign.ts:86-88 | the current campaign is replaced only when its uuid matches |
| `UseCampaign.Composable.constructor` | src/composables/useCampaign.ts:11-14 | the state starts empty, with no current campaign, not loading and without error |
| `UseCampaign.Composable.FetchUserCampaigns` | src/composables/useCampaign.ts:16-32 | signed out: "User not authenticated" and no field changes; otherwise not loading afterwards, with the list replaced and error cleared, or error set to the failure's message and the list kept |
| `UseCampaign.Composable.GetCampaign` | src/composables/useCampaign.ts:34-50 | returns what the service gave; the current campaign is replaced only by a found campaign; not loading afterwards; error cleared or set to the failure's message |
| `UseCampaign.Composable.CreateCampaign` | src/composables/useCampaign.ts:52-70 | signed out: the error and no field changes; success appends exactly the new campaign at the end; failure keeps the list and sets error; not loading afterwards |
| `UseCampaign.Composable.UpdateCampaign` | src/composables/useCampaign.ts:72-96 | signed out: the error and no field changes; success replaces only the first list entry with the uuid and the current campaign only if its uuid matches; failure changes neither and sets error; not loading afterwards |
| `Router.Guard` | src/router/index.ts:61-69 | auth-only while signed out redirects to 'login' with redirect = the full path; otherwise guest-only while signed in redirects to 'home'; it proceeds exactly when neither applies |
| `Router.BeforeEach` | src/router/index.ts:53-70 | initialisation is awaited exactly when the auth store is loading, and the decision then uses the state after it |
| `Router.RouteTableFlags` | src/router/index.ts:6-49 | in the table only 'login' and 'register' are guest-only, and every other route requires authentication |
| `Router.RouteAccess` | src/router/index.ts:61-69 | over the table, a signed-out visitor is let through to exactly the guest pages and a signed-in one to exactly the others |
| `Router.NoRedirectLoop` | src/router/index.ts:61-69 | every redirect names a route of the table that the same visitor is then let through to |

## Left out

- The OpenAI SDK client, its construction and the environment lookup of the API key. The transport and the model listing are parameters, and the environment's key is an argument of `NewService`.
- Real sleeping and promise scheduling. A sleep only records its delay.
- The logging of a JSON parse error (`console.error`).
- JSON itself. Parsing and stringifying are injected functions; only "a canonical argument string comes back unchanged" is stated about them.
- The temperature: a `real` constant, compared only by equality.
- String lengths. JavaScript's `slice` counts UTF-16 code units; the model counts Dafny characters (Unicode scalar values).
- A null campaign passed to `provideSuggestion`. It is rejected exactly like a campaign without uuid; the model takes a campaign value.
- A `groups` value that is present but not an array, passed to `provideSuggestion`. The code would throw from `.join`; the model's groups are a list or absent.
- Firestore internals: id generation, `Timestamp.now()`, `getDoc`, query ordering, and the messages of backend failures. Each enters as a parameter. A fresh id is required not to be in the collection already.
- Absent `title` or `description` in a stored document. They are modelled as the empty string. The prompt reads them through `|| ''`, so it is unaffected, but a document returned by `getCampaign` or `updateCampaign` lacks the field where the model has `""`.
- Fields an update payload sets explicitly to `undefined`. The model treats them as absent, though the spread would write `undefined`.
- UI state: the reactivity of the refs, the intermediate `isLoading = true` state during an await, and interleaved concurrent actions. Each action is modelled as completing at once.
- `UseCampaign.Composable.CreateCampaign`, `UseCampaign.Composable.UpdateCampaign`: the payload is passed on to the awaited service call, which is the `reply` parameter here, so the state does not depend on it.
- `src/services/user.service.ts`: a pass-through to Firebase Auth and Firestore.
- `src/stores/auth.ts`: depends on the `onAuthStateChanged` observer. Its other actions repeat the flag discipline modelled in `UseCampaign`. What `initialize()` leads to is the parameter `authenticatedAfterInit` of `Router.BeforeEach`.
- The router's history, the lazily imported views, the Vue views and the end-to-end browser test.
