# A verified model of the portfolio CMS backend's logic

The backend configures a headless CMS (Payload) for a personal portfolio site.
Most of it is declarative schema. This project models the parts that decide
something. Each area below is a group of Dafny modules, most named after the source file they model:

- **Remote-image-dimension enrichment.** The `addRemoteImageDimensions`
  beforeChange hooks: the global one in `TextPage.ts`, the `pages` collection's
  copy, and the single-document `socialmedia` one (modules `RemoteImage`,
  `TextPage`, `Pages`, `SocialMedia`). The hook probes every image-bearing
  content block with a non-empty `imageUrl`. It writes `{width, height}` on
  success and `{null, null}` on any failure. Every other block and field passes
  through. The model keeps "never attempted" (no `imageDimensions`) distinct from
  "attempted and failed" (`{null, null}`). Fetching and decoding are replaced by
  the outcome they produce (`ImageFetch`), given as an oracle `probe: string -> ImageFetch`.
  In the configuration shown these two hooks are not attached: `payload.config.ts`
  registers only the pages, videos, music and users collections (line 57), so the
  `socialmedia` collection and its hook are unused, and no registered global uses
  the `TextPage.ts` hook. Only the `pages` copy runs.
- **Access control and validation.** The `music`, `videos` and `users`
  collections (modules `Auth`, `Music`, `Videos`, `Users`): read, create, update
  and delete rules; the `role` field's access and visibility; the cookie settings;
  the thumbnail-URL validator and visibility condition.
- **Configuration logic** (`PayloadConfig`): the Postgres port default, the
  `jobs.access.run` guard, and the `/deploy-frontend` handler's chain of early returns.
- **Small document transforms**: the SEO title and URL generators, the
  search-field list and the search read rule (`Plugins`), and the `beforeSync`
  record merge (`SearchSync`).
- **Deploy button** (`DeployButton`): a class over the three React state cells
  `isDeploying`, `message` and `isError`, with the click handler split at its
  `await` and the render guards. `DeployFlow` composes it with the server handler.
- **Drag-to-reorder music list** (`DraggableMusicList`): a class over `items` and
  `isLoading`, with `fetchItems` and `handleDragEnd`. The pure parts are functions:
  `findIndex`, the move, and the `order = index + 1` renumbering. The PATCH
  requests a drag issues are recorded in a `sent` field.

JavaScript semantics the code depends on are written out in module `Js`:
truthiness, `x || y`, optional property reads, `String(x)`, `response.ok` and
`parseInt(s, 10)`. Environment variables are parameters, `None` when unset.

Points about the code that the model keeps as written:

- There is no deploy-status endpoint and no poller. The only deploy logic is the
  `/deploy-frontend` POST handler and a button that reports its reply.
- Every `/deploy-frontend` reply is built with `Response.json(body)` and no init
  object, so every reply has status 200, errors included (see Findings). The
  success reply is `{message, vercelResponse}`.
- `ContentBlockType` has four variants (rich text, image, text with image, text
  with video), and both block-list hooks read and write `content`.
- On a failed probe the block hooks log `data.imageUrl` (the document's, not the
  block's). Logging is not modelled.
- The button reports success on an ok status because the body parsed: `res.json()`
  runs before the `res.ok` check, so an ok reply whose body is not JSON ends in
  an error message.
- A drag reverts by refetching only when a PATCH *rejects*. `Promise.all` over
  `fetch` does not reject on an error status, so a 4xx/5xx update is not reverted.

## Model

| member | source | states |
|---|---|---|
| RemoteImage.DimensionsOf | src/TextPage/TextPage.ts:483-514 | the written dimensions are `{null, null}` exactly when the fetch rejects, the status is not ok or decoding fails; on success they are sharp's width and height |
| TextPage.EnrichBlock | src/TextPage/TextPage.ts:478-517 | a block that is not an image block with a truthy `imageUrl` is returned unchanged; an applicable block keeps every other field and gains `imageDimensions`, null exactly when its own probe failed, else the probed width/height |
| TextPage.EnrichContent | src/TextPage/TextPage.ts:477-518 | the enriched list has the input's length and block i of the output is block i of the input enriched |
| TextPage.AddRemoteImageDimensions | src/TextPage/TextPage.ts:472-524 | absent `content` returns the document unchanged; every other top-level field is preserved; `content` keeps its length and order, each block enriched on its own |
| TextPage.AbsentUnlessAttempted | src/TextPage/TextPage.ts:479-516 | an image block without dimensions ends without them exactly when its `imageUrl` is empty (never attempted stays distinct from failed) |
| TextPage.EnrichIsolated | src/TextPage/TextPage.ts:478-517 | block i of the output is the same under any two probes that agree on block i's URL, so a failure elsewhere cannot change it |
| TextPage.EnrichContentIdempotent | src/TextPage/TextPage.ts:477-518 | enriching an enriched list again with the same remote images changes nothing |
| TextPage.HookIdempotent | src/TextPage/TextPage.ts:472-524 | running the hook twice with unchanged remote images gives the same document |
| Pages.AddRemoteImageDimensions | src/collections/Pages/index.ts:14-66 | the collection copy: absent `content` is returned as is; fields are kept; length and order are kept; non-applicable blocks are untouched; applicable ones keep their fields and get the dimensions of their own probe |
| Pages.BeforeChange | src/collections/Pages/index.ts:126 | the chain runs enrichment on the output of `populatePublishedAt`: its fields are what that hook left, `content` is present exactly when it was there, and each block is that hook's block enriched |
| Pages.EnrichmentSeesPublishedAt | src/collections/Pages/index.ts:126 | every field `populatePublishedAt` sets survives the enrichment unchanged |
| SocialMedia.AddRemoteImageDimensions | src/collections/SocialMedia/index.ts:6-39 | the result always carries `imageDimensions`; all other fields are kept; it is `{null, null}` exactly when the probe of `iconUrl` failed, else the probed width/height |
| SocialMedia.EmptyIconUrlIsProbed | src/collections/SocialMedia/index.ts:8 | an empty `iconUrl` is still fetched: there is no empty-URL guard |
| SocialMedia.HookIdempotent | src/collections/SocialMedia/index.ts:6-39 | a second run with the same remote icon gives the same document |
| Music.OverrideThumbnailUrlValidator | src/collections/Music/index.ts:11-16 | with `useThumbnailUrl === true` a falsy value gives the "required" message and a non-empty string passes; with any other `useThumbnailUrl` every value passes |
| Music.ThumbnailUrlShown | src/collections/Music/index.ts:89 | `thumbnailUrl` is shown exactly when `useThumbnailUrl` is the boolean `true` (a truthy non-boolean does not show it) |
| Music.ValidatorFollowsVisibility | src/collections/Music/index.ts:89 | while `thumbnailUrl` is hidden (override not exactly `true`) the validator always passes; while shown it fails exactly on falsy values |
| Music.CanRead | src/collections/Music/index.ts:21 | read is always allowed |
| Music.CanCreate | src/collections/Music/index.ts:22-27 | no user gives false; allowed iff `user?.role === 'admin'` |
| Music.CanUpdate | src/collections/Music/index.ts:28-33 | no user gives false; allowed iff `user?.role === 'admin'` |
| Music.CanDelete | src/collections/Music/index.ts:34-39 | no user gives false; allowed iff `user?.role === 'admin'` |
| Music.WriteRulesAgree | src/collections/Music/index.ts:22-39 | create, update and delete admit exactly the same requesters |
| Videos.CanRead | src/collections/Videos/index.ts:8 | read is always allowed |
| Videos.CanCreate | src/collections/Videos/index.ts:9-14 | no user gives false; allowed iff the user's role is 'admin' |
| Videos.CanUpdate | src/collections/Videos/index.ts:15-20 | no user gives false; allowed iff the user's role is 'admin' |
| Videos.CanDelete | src/collections/Videos/index.ts:21-26 | no user gives false; allowed iff the user's role is 'admin' |
| Videos.SameRightsAsMusic | src/collections/Videos/index.ts:7-27 | videos grant every requester exactly the rights music grants |
| Users.CanAccessAdminPanel | src/collections/Users/index.ts:13 | admin-panel access iff a user is present with role 'admin'; no user gives false |
| Users.CanDelete | src/collections/Users/index.ts:15 | deleting users iff the requester's role is 'admin' |
| Users.CanSetRole | src/collections/Users/index.ts:44-45 | setting `role` on create or update iff the requester's role is 'admin' |
| Users.CanReadRole | src/collections/Users/index.ts:46 | `role` is readable by everyone |
| Users.RoleFieldShown | src/collections/Users/index.ts:50 | the condition reads `user` from the document data it receives: it throws exactly when that property is undefined or null, and otherwise shows the field exactly when its `role` is 'admin' |
| Users.RoleFieldConditionAlwaysThrows | src/collections/Users/index.ts:29-54 | a document without a `user` property, which is every users document, makes the condition throw, whoever is viewing |
| Users.RoleFieldShownIntended | src/collections/Users/index.ts:50 | the corrected condition reading the requester: no user gives false; shown iff the requester's role is 'admin' |
| Users.RoleShownOnlyToThoseWhoMaySetIt | src/collections/Users/index.ts:44-50 | with the corrected condition the role field is shown exactly to those allowed to set it |
| Users.AdminChecksAgree | src/collections/Users/index.ts:13-15 | the optional-chaining admin checks agree with the music collection's `user && user.role === 'admin'` |
| Users.Cookies | src/collections/Users/index.ts:24-27 | `secure` iff NODE_ENV is 'production'; `sameSite` is 'None' exactly when secure, else 'Lax' |
| PayloadConfig.DatabasePort | src/payload.config.ts:47 | a set, non-empty POSTGRES_PORT is parsed as given; unset or empty, '5432' is parsed instead |
| Js.ParseInt | src/payload.config.ts:47 | `parseInt(s, 10)`: the empty string is NaN; a negative result needs a leading '-' after white space, and a leading '-' never gives a positive result |
| Js.ParseIntOfDigits | src/payload.config.ts:47 | a non-empty string of decimal digits parses to the number it denotes |
| PayloadConfig.DatabasePortDefault | src/payload.config.ts:47 | an unset or empty POSTGRES_PORT gives 5432; a decimal numeral gives its own value |
| Js.ParseIntReadsDecimal | src/payload.config.ts:47 | `parseInt(String(n), 10) == n` for every integer n |
| PayloadConfig.JobsRunAllowed | src/payload.config.ts:71-80 | any logged-in user may run jobs; with a secret set, an anonymous caller may iff the header is "Bearer " + secret; with the secret unset, an anonymous caller may iff the header is exactly "Bearer undefined"; no header and no user gives false |
| PayloadConfig.UnsetSecretAdmitsBearerUndefined | src/payload.config.ts:79 | with CRON_SECRET unset, an anonymous request with header "Bearer undefined" is allowed |
| PayloadConfig.JobsRunAllowedIntended | src/payload.config.ts:71-80 | corrected guard: anonymous callers need a configured, non-empty secret and the matching header |
| PayloadConfig.IntendedRefusesWithoutSecret | src/payload.config.ts:78-79 | the corrected guard refuses every anonymous request while the secret is unset |
| PayloadConfig.IntendedAgreesWhenConfigured | src/payload.config.ts:71-80 | with a non-empty secret the corrected guard and the code agree on every request |
| PayloadConfig.CallHook | src/payload.config.ts:98-117 | a rejected POST and a failed `json()` fail with that same thrown value; a non-ok hook status fails with "Vercel API responded with status N"; the run triggers exactly on an ok status with a JSON body, carrying that body |
| PayloadConfig.DeployFrontend | src/payload.config.ts:88-119 | no user or a user outside 'users' is refused with no POST; an unset hook URL is refused with no POST; otherwise exactly one POST to the hook URL; at most one POST per call |
| PayloadConfig.ErrorMessage | src/payload.config.ts:111-115 | the caught value's `message` when it is an `Error`, else 'Failed to trigger deployment.' |
| PayloadConfig.ReplyBody | src/payload.config.ts:90-117 | every reply is a JSON object carrying `error` exactly when no deployment was triggered |
| PayloadConfig.ReplyOf | src/payload.config.ts:88-119 | every reply, error replies included, has status 200 |
| PayloadConfig.ReplyIntended | src/payload.config.ts:88-119 | corrected replies: same bodies, with an ok status exactly for the triggered outcome |
| PayloadConfig.NonOkHookDetailsMentionStatus | src/payload.config.ts:100-117 | a non-ok hook response gives a reply whose `details` is "Vercel API responded with status " followed by the status |
| PayloadConfig.RejectedHookDetailsCarryMessage | src/payload.config.ts:99-117 | a rejected POST gives a reply whose `details` is the `Error`'s message, or 'Failed to trigger deployment.' for a non-Error |
| PayloadConfig.OkHookTriggers | src/payload.config.ts:103-109 | an ok, parseable hook response gives 'Deployment triggered successfully!' with the hook's body |
| Plugins.GenerateTitle | src/plugins/index.ts:12-14 | "Backend" exactly when `pageTitle` is missing or empty; otherwise the page title followed by " \| Backend" |
| Plugins.GenerateTitleInjective | src/plugins/index.ts:13 | distinct page titles give distinct generated titles |
| Plugins.GenerateUrl | src/plugins/index.ts:16-19 | the result starts with the server URL; it is the bare URL exactly when `slug` is missing or empty, else URL + "/" + slug |
| Plugins.GenerateUrlInjective | src/plugins/index.ts:18 | under one server URL distinct slugs give distinct URLs |
| Plugins.SearchFields | src/plugins/index.ts:30-32 | the default search fields come first, in order, then the overrides |
| Plugins.SearchReadAllowed | src/plugins/index.ts:34 | search documents are never readable |
| SearchSync.BeforeSyncWithSearch | src/search/beforeSync.ts:3-15 | every search-doc key except `slug` and `meta` is kept; `slug` is the page's; `meta.title` is the page's meta title when truthy, else its title; `meta.description` is the meta description (undefined without meta); other meta keys are carried over and no others added |
| SearchSync.NoMetaUsesPageTitle | src/search/beforeSync.ts:10-12 | without `meta` the search meta is exactly `{title: page title, description: undefined}` |
| DraggableMusicList.FindIndex | src/components/DraggableMusicList/DraggableMusicList.tsx:91-92 | the first index holding the id, or -1 exactly when no document has it |
| DraggableMusicList.Reorder | src/components/DraggableMusicList/DraggableMusicList.tsx:91-93 | the reordered list keeps its length and puts the dragged document at the index the drop target had |
| DraggableMusicList.Renumber | src/components/DraggableMusicList/DraggableMusicList.tsx:99-109 | one PATCH per document, in list order, for that document's id with order index + 1 |
| DraggableMusicList.ArrayMove | src/components/DraggableMusicList/DraggableMusicList.tsx:93 | the moved list keeps its length and holds the moved element at the target index |
| DraggableMusicList.ArrayMoveAt | src/components/DraggableMusicList/DraggableMusicList.tsx:93 | each position of the moved list holds a stated position of the old list: outside the range between the two indices nothing moves, inside it elements shift by one |
| DraggableMusicList.ArrayMoveIsPermutation | src/components/DraggableMusicList/DraggableMusicList.tsx:93 | the moved list is a permutation of the old one |
| DraggableMusicList.ArrayMoveStays | src/components/DraggableMusicList/DraggableMusicList.tsx:93 | moving onto the same index changes nothing |
| DraggableMusicList.ReorderMovesDraggedOntoTarget | src/components/DraggableMusicList/DraggableMusicList.tsx:90-93 | the reordered list is a permutation of the old one and the dragged document sits at the old index of the document it was dropped over |
| DraggableMusicList.RenumberIsOneToN | src/components/DraggableMusicList/DraggableMusicList.tsx:99-100 | the orders sent are exactly 1..n in list order, strictly increasing |
| DraggableMusicList.OnePatchPerDocument | src/components/DraggableMusicList/DraggableMusicList.tsx:91-109 | after a drag the PATCH targets are the listed documents' ids, each as often as it was listed |
| DraggableMusicList.MusicListState.constructor | src/components/DraggableMusicList/DraggableMusicList.tsx:51-52 | starts with no items, loading, and no requests |
| DraggableMusicList.MusicListState.StartFetch | src/components/DraggableMusicList/DraggableMusicList.tsx:56 | raises `isLoading` and issues one list request |
| DraggableMusicList.MusicListState.FinishFetch | src/components/DraggableMusicList/DraggableMusicList.tsx:57-74 | items become the fetched docs on success and stay on failure; `isLoading` ends false either way |
| DraggableMusicList.MusicListState.FetchItems | src/components/DraggableMusicList/DraggableMusicList.tsx:55-75 | one list request; items replaced only on success; ends not loading |
| DraggableMusicList.MusicListState.HandleDragEnd | src/components/DraggableMusicList/DraggableMusicList.tsx:86-124 | with no target or the same id, nothing changes and nothing is sent; otherwise items become the reordered list, one PATCH per item with order index+1 is sent, and if any PATCH rejects the list is reloaded |
| DeployButton.ClickThrows | src/components/DeployButton/DeployButton.tsx:19-29 | the try block completes exactly when the response arrives with an ok status and a JSON body |
| DeployButton.ClickBanner | src/components/DeployButton/DeployButton.tsx:19-37 | ok status and JSON body give '🚀 Deployment started.' without error; a rejected fetch or failed `json()` gives 'Error: ' + the Error's message, and no banner for a non-Error; a non-ok null body gives 'Error: ' + the TypeError text; any other non-ok body gives 'Error: ' + (data.error or 'Something went wrong.'); error banners start with 'Error: ' |
| DeployButton.DeployButtonState.constructor | src/components/DeployButton/DeployButton.tsx:10-12 | initially not deploying, empty message, no error |
| DeployButton.DeployButtonState.StartClick | src/components/DeployButton/DeployButton.tsx:15-17 | a click starts deploying with an empty message and no error |
| DeployButton.DeployButtonState.SettleClick | src/components/DeployButton/DeployButton.tsx:19-41 | the message and error flag are set from the outcome (left alone for a non-Error throw) and deploying ends |
| DeployButton.DeployButtonState.HandleClick | src/components/DeployButton/DeployButton.tsx:14-42 | every path ends with `isDeploying` false and the banner of the response |
| DeployButton.DeployButtonState.View | src/components/DeployButton/DeployButton.tsx:44-63 | nothing renders without a user; the button is disabled and labelled 'Deploying...' exactly while deploying, else 'Deploy'; a banner shows exactly for a non-empty message, red exactly on error |
| DeployButton.DeployButtonState.StartClickDisablesButton | src/components/DeployButton/DeployButton.tsx:15-17 | during a click the button is disabled, reads 'Deploying...' and shows no banner |
| DeployFlow.ServerErrorsShowAsStarted | src/payload.config.ts:88-119 | composed with the button, every handler outcome, the refusals and failures included, ends in '🚀 Deployment started.' without error |
| DeployFlow.AnonymousClickShowsStarted | src/payload.config.ts:89-91 | an anonymous request is refused without a POST, yet the button reports the deployment started |
| DeployFlow.IntendedRepliesSurfaceErrors | src/components/DeployButton/DeployButton.tsx:27-37 | with the corrected replies the button reports an error exactly when nothing was triggered, quoting the server's refusal texts; a failed POST shows 'Error: [object Object]' |

## Findings

| source | as written | input that shows it | evidently intended | confidence | as-written member | corrected member |
|---|---|---|---|---|---|---|
| src/payload.config.ts:90-117 | every `/deploy-frontend` reply is `Response.json(...)` with the default status 200, so the button's `res.ok` check never sees the server's errors | an admin clicks while `VERCEL_DEPLOY_HOOK_URL` is unset, or while the hook answers with an error status or the POST fails: the reply is `{error: ...}` with status 200 and the button shows '🚀 Deployment started.' (an expired session gives the same for the 'not authorized' reply) | error replies carry an error status (401, 500, 502 here) so the button shows 'Error: ...' | high (not executed) | DeployFlow.ServerErrorsShowAsStarted | DeployFlow.IntendedRepliesSurfaceErrors |
| src/collections/Users/index.ts:50 | the `role` field's condition destructures `user` from its first argument, which is the document's data; users documents have no `user` field, so `user.role` throws a TypeError for every viewer | any users document opened in the admin panel, by an admin or anyone else | read the requester from the third argument with optional chaining, `(_, __, { user }) => user?.role === 'admin'`, showing the field exactly to those who may set it | high (not executed) | Users.RoleFieldConditionAlwaysThrows | Users.RoleFieldShownIntended |
| src/payload.config.ts:79 | the anonymous path compares the header with the template string `Bearer ${process.env.CRON_SECRET}`, which is "Bearer undefined" when the secret is unset | no user, CRON_SECRET unset, header `Authorization: Bearer undefined`: jobs may run | refuse anonymous callers unless a non-empty secret is configured | medium (not executed) | PayloadConfig.UnsetSecretAdmitsBearerUndefined | PayloadConfig.JobsRunAllowedIntended |

## Left out

- Network I/O, `sharp` and `Buffer`: replaced by the outcomes they produce (`ImageFetch`, `HookCall`, `ClientFetch`, `PatchResult`, fetched lists). The only distinction kept is whether the fetch rejects, whether the status is ok and whether decoding or `json()` fails.
- Logging (`req.payload.logger.error`, `console.error`): it has no effect on results. The block hooks' log line uses `data.imageUrl` where `block.imageUrl` is meant.
- Concurrency: `Promise.all` over the block probes and over the PATCHes is modelled as an ordered map, since the branches are independent. The refetch after a rejected PATCH is not awaited in the source; the model completes it before the handler returns. Interleaving with later drags or clicks is not modelled.
- The 10-second `setTimeout` that clears the button message, React rendering beyond the button's view, the list's JSX, and dnd-kit sensors.
- `arrayMove` is dnd-kit's and not shown. It is modelled as remove-at-`from`, insert-at-`to`.
- DraggableMusicList.MusicListState.HandleDragEnd: requires both drag ids to belong to listed documents (dnd-kit reports only the ids registered from `items`), so the `findIndex` result -1 is never passed to `arrayMove`.
- The optimistic `setItems` does not update the documents' own `order` fields; the model keeps them as they were, like the code.
- Numbers are integers: floating point, `NaN` from `parseInt` (modelled as `None`) and values beyond exact integer range are not modelled. `parseInt` skips only ASCII white space.
- JSON serialisation between the deploy handler and the button is the identity on the bodies involved, apart from a caught `Error`, which the handler's reply carries as `{}`.
- The TypeError text for reading `error` of a `null` body is V8's wording.
- The image probe is a function of the URL, so within one hook run two blocks with the same `imageUrl` get the same outcome; the code fetches each block separately, and a transient failure affecting only one of them is not represented. No stated property depends on this.
- Users.RoleFieldShown: what the admin panel does when the condition throws is not modelled; the model only records the throw.
- Content blocks: an absent `imageUrl` is represented as the empty string. A truthy non-array `content` is not modelled, nor are CMS-added block fields such as `id`. `TextWithImageBlock.alignment` reuses the three-valued alignment type. The `label` field is named `blockLabel`.
- SocialMedia: `iconUrl` is always present (the field is required), so a partial update without it is not modelled.
- SearchSync: a `meta` value that is neither an object nor absent would be spread key by key in JavaScript; the model spreads only objects.
- Helpers of the repository that are not part of this model: `authenticated` (the users collection's create, read and update rules and the pages and socialmedia rules), `authenticatedOrPublished`, `populatePublishedAt` (a parameter of `Pages.BeforeChange`), `slugField`, `getServerSideURL` and `searchFields` (parameters of `Plugins`), the Postgres adapter, CORS, and the cloud, SEO and search plugins' internals.
- Field schemas, defaults and editor feature lists (TextPage.ts:80-470 and the collections' `fields`), and the globals and static admin components, which hold no logic.
