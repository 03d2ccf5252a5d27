# CleanMate admin dashboard — a Dafny model of its decision rules

The CleanMate admin dashboard is a React application. Staff use it to review streak
submissions and cleanups, to distribute rewards via the on-chain RewardsManager, to manage
users' referral codes, and to operate three REST back offices: KYC, email and bank. Most of the
application is rendering and network plumbing. This project models the deterministic rules
underneath it:

- the streak-reward cart shared across pages, and the separate cart kept by the rewards page;
- cleanup eligibility, and the validation gates that turn form rows and cart items into
  equal-length parallel arrays for the three RewardsManager calls;
- the wallet and configuration guards of the contract mutations, with the element-wise
  amount and id conversions;
- which review actions the streak and KYC pages offer, and the payloads they send;
- subgraph `where` filters, address normalisation, the entity transforms, offset paging and
  the client-side date window;
- REST query strings, response-envelope unwrapping and the HTTP error messages;
- the small formatters, status tables, search predicates, counters and input validators;
- the two credential stores: the `ApiKeyContext` record under "admin_api_keys", and the
  per-service entries of `src/lib/auth.ts`.

The model has one Dafny module per source file. There are also four shared modules:

- `Common`: Option, order-preserving Filter, Count, MapSeq, Flatten and JavaScript's `slice`.
- `Text`: ASCII lower/upper case, `includes`, `trim`, `replace`, decimal strings and form
  encoding.
- `Foreign`: JavaScript numbers and the conversions the dashboard borrows from libraries.
- `BrowserStorage`: localStorage, as a class over a string map that may refuse writes.

Some source files change state step by step: the cart provider, the API-key provider, page
handlers, modal dialogs, and filter objects built by conditional assignments. These are
classes or methods whose postconditions tie the new state to pure functions. The properties
are then proved about those functions as lemmas.

Foreign operations are parameters of the functions that use them, never assumed bodies:

- viem's `formatEther`, `parseEther` and `parseUnits`;
- `BigInt`, `Number` and `parseFloat`;
- `JSON.parse` and `JSON.stringify`;
- `Date` parsing.

A conversion that throws is `None`. Where a property needs a round trip, for example
`JSON.parse(JSON.stringify(cart))`, the lemma requires it of the parameter.

## Model

| member | source | states |
|---|---|---|
| StreakCartContext.NewItem | src/contexts/StreakCartContext.tsx:54-62 | a new cart item copies submissionId, metadata, user and submittedAt from the submission and carries the given amount |
| StreakCartContext.InitialAmount | src/contexts/StreakCartContext.tsx:51-53 | the amount is "0" when rewardAmount is missing or empty, otherwise formatEther of it (None when that throws) |
| StreakCartContext.Added | src/contexts/StreakCartContext.tsx:54-63 | a duplicate submissionId leaves the cart unchanged; otherwise the cart is extended by exactly that item at the end |
| StreakCartContext.Removed | src/contexts/StreakCartContext.tsx:66-68 | the result holds exactly the items whose id differs, so the id is no longer in the cart, and it is no longer than the input |
| StreakCartContext.AmountUpdated | src/contexts/StreakCartContext.tsx:74-80 | same length; position i gets the new amount if its id matches and is otherwise unchanged |
| StreakCartContext.LoadCart | src/contexts/StreakCartContext.tsx:29-37 | the initial cart is the parsed stored list; it is empty when nothing is stored or parsing fails |
| StreakCartContext.AddedKeepsDistinct | src/contexts/StreakCartContext.tsx:44-63 | adding keeps submissionIds pairwise distinct |
| StreakCartContext.AddedExtends | src/contexts/StreakCartContext.tsx:44-63 | the old cart is a prefix of the new one, at most one item longer, and the id is in the cart afterwards |
| StreakCartContext.RemovedKeepsDistinct | src/contexts/StreakCartContext.tsx:66-68 | removing keeps submissionIds distinct |
| StreakCartContext.RemovedAbsentIsNoop | src/contexts/StreakCartContext.tsx:66-68 | removing an id that is not in the cart leaves it unchanged |
| StreakCartContext.RemovedKeepsOrder | src/contexts/StreakCartContext.tsx:66-68 | removal distributes over concatenation, so the survivors keep their relative order |
| StreakCartContext.AmountUpdatedKeepsIds | src/contexts/StreakCartContext.tsx:74-80 | an amount update changes no id, metadata, user or timestamp, keeps ids distinct and keeps cart membership |
| StreakCartContext.ReloadRestoresCart | src/contexts/StreakCartContext.tsx:29-42 | with a faithful JSON round trip, loading the entry just persisted gives back the cart |
| StreakCartContext.StreakCartProvider.Persist | src/contexts/StreakCartContext.tsx:40-42 | the storage entry is rewritten with the encoded cart when storage is writable, and nothing else changes |
| StreakCartContext.StreakCartProvider.constructor | src/contexts/StreakCartContext.tsx:29-42 | the cart is loaded from the stored entry and then written back |
| StreakCartContext.StreakCartProvider.IsInCart | src/contexts/StreakCartContext.tsx:82-84 | true iff some cart item has that submissionId |
| StreakCartContext.StreakCartProvider.AddToCart | src/contexts/StreakCartContext.tsx:44-64 | the cart grows by the new item only for an absent id whose amount converts, and is persisted; distinct ids stay distinct |
| StreakCartContext.StreakCartProvider.RemoveFromCart | src/contexts/StreakCartContext.tsx:66-68 | the cart becomes Removed(old cart, id) and is persisted; an absent id changes nothing |
| StreakCartContext.StreakCartProvider.ClearCart | src/contexts/StreakCartContext.tsx:70-72 | the cart becomes empty and the empty list is persisted |
| StreakCartContext.StreakCartProvider.UpdateCartItemAmount | src/contexts/StreakCartContext.tsx:74-80 | the cart becomes AmountUpdated(old cart, id, amount) and is persisted |
| RewardsManagerPage.CheckCleanupId | src/pages/RewardsManagerPage.tsx:107-125 | accepted iff the trimmed input is non-empty and Number of it is a positive integer; otherwise the empty-input or invalid-id message |
| RewardsManagerPage.AcceptedIdConverts | src/pages/RewardsManagerPage.tsx:114-128 | an accepted id is already trimmed and converts to a positive BigInt |
| RewardsManagerPage.RewardRow | src/pages/RewardsManagerPage.tsx:213-218 | a loaded row takes the participant address, amount = approvedAmount = rewardEarned or "0", never empty |
| RewardsManagerPage.CheckEligibility | src/pages/RewardsManagerPage.tsx:164-223 | checks in order: status 3 or 4, not yet distributed, proof submitted, some accepted participant; each failure sets its message and one blank row |
| RewardsManagerPage.AcceptedNonEmpty | src/pages/RewardsManagerPage.tsx:207-211 | the accepted list is non-empty iff some participant has status "accepted" |
| RewardsManagerPage.EligibilityExact | src/pages/RewardsManagerPage.tsx:165-202 | no error iff all four conditions hold; any error resets the rows to one blank row |
| RewardsManagerPage.EligibleRowsAreAccepted | src/pages/RewardsManagerPage.tsx:207-219 | without error the rows are exactly the accepted participants, in order, with their earned amount |
| RewardsManagerPage.SendPayload | src/pages/RewardsManagerPage.tsx:284-298 | alerts iff no row is valid; otherwise the three parallel arrays are the valid rows' fields, index by index |
| RewardsManagerPage.ValidRowsEmpty | src/pages/RewardsManagerPage.tsx:285-291 | the filtered rows are empty iff no row passes the filter |
| RewardsManagerPage.SendPayloadRebuildsValidRows | src/pages/RewardsManagerPage.tsx:284-298 | zipping the sent arrays back together gives exactly the valid rows, in order |
| RewardsManagerPage.DistributePayload | src/pages/RewardsManagerPage.tsx:329-348 | refuses without a cleanup, then with no valid row; otherwise sends Number(cleanupId) and the valid rows' parallel arrays |
| RewardsManagerPage.StreaksPayload | src/pages/RewardsManagerPage.tsx:408-426 | refuses an empty cart, then a cart without a valid item; otherwise the valid items' ids and amounts in cart order |
| RewardsManagerPage.PageCartAmount | src/pages/RewardsManagerPage.tsx:377 | the page cart's amount is amount, else rewardAmount, else "0", unconverted |
| RewardsManagerPage.WithoutIndex | src/pages/RewardsManagerPage.tsx:270-272 | removes exactly the row at a valid index; an out-of-range index changes nothing |
| RewardsManagerPage.RewardsManagerPage.constructor | src/pages/RewardsManagerPage.tsx:72-91 | the initial page state: one blank recipient, one blank participant, no cleanup, empty page cart, dialogs closed |
| RewardsManagerPage.RewardsManagerPage.LoadCleanup | src/pages/RewardsManagerPage.tsx:107-129 | an accepted id becomes the selection and clears the error; a rejected one sets its message and keeps the selection; only the error and the selection change, and the selection stays an accepted id |
| RewardsManagerPage.RewardsManagerPage.LoadErrorEffect | src/pages/RewardsManagerPage.tsx:132-141 | a load error with a selection sets "Failed to load cleanup: …" and one blank row; otherwise nothing changes |
| RewardsManagerPage.RewardsManagerPage.NotFoundEffect | src/pages/RewardsManagerPage.tsx:144-161 | a settled null result for a selection sets the not-found message and one blank row; otherwise nothing changes |
| RewardsManagerPage.RewardsManagerPage.EligibilityEffect | src/pages/RewardsManagerPage.tsx:164-229 | a loaded cleanup sets error and rows to CheckEligibility; with no selection the rows reset |
| RewardsManagerPage.RewardsManagerPage.AddRecipient | src/pages/RewardsManagerPage.tsx:266-268 | appends one blank recipient |
| RewardsManagerPage.RewardsManagerPage.RemoveRecipient | src/pages/RewardsManagerPage.tsx:270-272 | drops the recipient at the index |
| RewardsManagerPage.RewardsManagerPage.AddParticipant | src/pages/RewardsManagerPage.tsx:311-313 | appends one blank participant row |
| RewardsManagerPage.RewardsManagerPage.RemoveParticipant | src/pages/RewardsManagerPage.tsx:315-317 | drops the participant row at the index |
| RewardsManagerPage.RewardsManagerPage.RecipientChange | src/pages/RewardsManagerPage.tsx:274-282 | the recipient row at the index gets the one edited field (address, amount or reward type) and keeps the others; every other row and the row count are unchanged |
| RewardsManagerPage.RewardsManagerPage.ParticipantChange | src/pages/RewardsManagerPage.tsx:319-327 | the participant row at the index gets the one edited field (address, amount, user name or approved amount) and keeps the others; every other row and the row count are unchanged |
| RewardsManagerPage.RewardsManagerPage.SendRewards | src/pages/RewardsManagerPage.tsx:284-309 | the action is SendPayload of the current recipients: an alert iff no row is valid |
| RewardsManagerPage.RewardsManagerPage.SettleSend | src/pages/RewardsManagerPage.tsx:300-308 | on success the dialog closes and the recipients reset; on error nothing changes |
| RewardsManagerPage.RewardsManagerPage.DistributeRewards | src/pages/RewardsManagerPage.tsx:329-362 | the action is DistributePayload of the current state; a dispatched cleanupId is a positive integer |
| RewardsManagerPage.RewardsManagerPage.SettleDistribute | src/pages/RewardsManagerPage.tsx:350-361 | on success the selection, input, rows and error reset; on error nothing changes |
| RewardsManagerPage.RewardsManagerPage.ClearCleanup | src/pages/RewardsManagerPage.tsx:364-369 | selection, input, rows and error reset |
| RewardsManagerPage.RewardsManagerPage.AddToStreakCart | src/pages/RewardsManagerPage.tsx:371-388 | page cart add: no-op for a duplicate id, otherwise appends the item with PageCartAmount |
| RewardsManagerPage.RewardsManagerPage.RemoveFromStreakCart | src/pages/RewardsManagerPage.tsx:390-394 | removes every page-cart item with that id |
| RewardsManagerPage.RewardsManagerPage.ClearStreakCart | src/pages/RewardsManagerPage.tsx:396-398 | empties the page cart |
| RewardsManagerPage.RewardsManagerPage.UpdateCartItemAmount | src/pages/RewardsManagerPage.tsx:400-406 | changes only the amount of matching page-cart items |
| RewardsManagerPage.RewardsManagerPage.DistributeStreaksReward | src/pages/RewardsManagerPage.tsx:408-427 | the action is StreaksPayload of the page cart; an empty cart alerts |
| RewardsManagerPage.RewardsManagerPage.SettleStreaks | src/pages/RewardsManagerPage.tsx:428-436 | the page cart is cleared only on success; on error it is untouched |
| UseRewardsManager.MapConvert | src/hooks/useRewardsManager.ts:52 | succeeds iff every element converts; then the result has the same length and element i is the conversion of input i |
| UseRewardsManager.Guard | src/hooks/useRewardsManager.ts:43-49 | no wallet gives "Wallet not connected" first; then a missing RewardsManager address gives the configuration error; passes iff both are present |
| UseRewardsManager.SendRewards | src/hooks/useRewardsManager.ts:42-68 | a failed guard throws; otherwise exactly one sendRewards clause with the recipients, the amounts in wei and the reward types |
| UseRewardsManager.DistributeRewards | src/hooks/useRewardsManager.ts:95-121 | a failed guard throws; otherwise exactly one distributeRewards clause with BigInt(cleanupId), the participants and the amounts in wei |
| UseRewardsManager.DistributeStreaksReward | src/hooks/useRewardsManager.ts:147-175 | a failed guard throws; otherwise exactly one distributeStreaksReward clause with the ids as BigInts and the amounts in wei |
| UseRewardsManager.WalletCheckedFirst | src/hooks/useRewardsManager.ts:43-45 | without a wallet all three mutations throw "Wallet not connected", whatever else holds |
| UseRewardsManager.StreakArgumentsAligned | src/hooks/useRewardsManager.ts:157-168 | equal-length ids and amounts reach the clause as equal-length arrays |
| UseRewardsManager.IsPending | src/hooks/useRewardsManager.ts:74 | pending iff the transaction or the mutation is pending |
| UseRewardsManager.UserRewards | src/hooks/useRewardsManager.ts:193-201 | the user-rewards query always yields null |
| UseRewardsManager.UserRewardsEnabled | src/hooks/useRewardsManager.ts:202 | the query runs iff there is a user address and a wallet |
| StreakReview.ApproveOne | src/pages/StreakDetailPage.tsx:54-60 | an approve request exists iff the id and the 18-decimal amount convert; it is one id and one amount |
| StreakReview.RejectOne | src/pages/StreakDetailPage.tsx:69-74 | a reject request exists iff the id converts; it is one id and the untrimmed reason |
| StreakDetailPage.ActionsFor | src/pages/StreakDetailPage.tsx:101-133 | approve/reject iff status 0; add-to-cart iff status 1, disabled and labelled "Already in Cart" exactly when in the cart |
| StreakDetailPage.ActionsExclusive | src/pages/StreakDetailPage.tsx:101-133 | the two action groups never show together, and neither shows for other statuses |
| StreakDetailPage.StreakDetailPage.constructor | src/pages/StreakDetailPage.tsx:23-26 | dialog closed, amount and reason empty |
| StreakDetailPage.StreakDetailPage.Approve | src/pages/StreakDetailPage.tsx:51-64 | an empty amount does nothing; otherwise ApproveOne, with the dialog closed and the amount cleared without waiting for the outcome |
| StreakDetailPage.StreakDetailPage.Reject | src/pages/StreakDetailPage.tsx:66-78 | an empty reason does nothing; otherwise RejectOne with the untrimmed reason, with the dialog closed and the reason cleared |
| StreaksPage.Filters | src/pages/StreaksPage.tsx:37-50 | status is Number(selection) iff not "all"; dates only when non-empty; the user field is never set |
| StreaksPage.PageVariables | src/pages/StreaksPage.tsx:37-52 | the page request sends a where with only status, present iff the status filter is not "all" |
| StreaksPage.RowActionsMatchDetailPage | src/pages/StreaksPage.tsx:166 | list row actions agree with the detail page's approve/reject rule |
| StreaksPage.ApprovedCards | src/pages/StreaksPage.tsx:239-244 | the card grid holds only status-1 submissions, and is absent iff the data is |
| StreaksPage.CardsExact | src/pages/StreaksPage.tsx:237-244 | with a date bound, a submission is a card iff it was loaded, is approved and lies in the window |
| StreaksPage.StreaksPage.constructor | src/pages/StreaksPage.tsx:26-35 | nothing selected, dialog closed, inputs empty |
| StreaksPage.StreaksPage.OpenDialog | src/pages/StreaksPage.tsx:91-101 | selects the submission and opens the dialog of the given kind |
| StreaksPage.StreaksPage.Approve | src/pages/StreaksPage.tsx:103-117 | no-op without a selection or amount; otherwise one-element arrays, and the dialog state resets |
| StreaksPage.StreaksPage.Reject | src/pages/StreaksPage.tsx:119-132 | no-op without a selection or reason; otherwise one-element arrays, and the dialog state resets |
| DateWindow.WindowStart | src/pages/StreaksPage.tsx:66-68 | the lower bound is 0 without a start date, else the start date in seconds |
| DateWindow.WindowEnd | src/pages/StreaksPage.tsx:69-71 | the upper bound is +Infinity without an end date, else the end date in seconds |
| DateWindow.WindowPages | src/pages/StreaksPage.tsx:55-78 | without bounds the data is returned unchanged; with bounds the page count is kept and each page is filtered inclusively |
| DateWindow.WindowedRows | src/pages/StreaksPage.tsx:58-76 | the windowed rows, flattened, are exactly the loaded rows within the bounds, in order |
| DateWindow.OpenEndKeepsLateRows | src/pages/StreaksPage.tsx:69-72 | with no end date every row at or after the start is kept |
| DateWindow.NaNNeverInWindow | src/pages/StreaksPage.tsx:65-72 | an unparsable timestamp (NaN) never lies in the window |
| CleanupsPage.Filters | src/pages/CleanupsPage.tsx:26-40 | status iff not "all", published iff not "all" and true iff "true"; organizer and dates only when non-empty |
| CleanupsPage.PageVariables | src/pages/CleanupsPage.tsx:26-42 | where is present iff status, organizer or published is set; its keys are among status, organizer and published, so the dates never reach the query; status is `Number(statusFilter)`, published the boolean of the select, the organizer normalised |
| CleanupsPage.BoundsInclusive | src/pages/CleanupsPage.tsx:45-68 | a cleanup created exactly at either bound stays in its page |
| UsersPage.Filters | src/pages/UsersPage.tsx:29-40 | each select is omitted for "all"; booleans are true iff "true"; kycStatus is Number(selection), so 0 is kept; referrer only when non-empty |
| UsersPage.PageVariables | src/pages/UsersPage.tsx:29-42 | where is present iff some filter is set; its keys are among isOrganizer, emailVerified, kycStatus and referrer, each present iff its filter is set and carrying its value, the referrer normalised and a kycStatus of "0" kept |
| Subgraph.NormalizeAddress | src/services/subgraph.ts:47-53 | lower-cased, starts with "0x", and prefixes "0x" only when the lower-cased input lacks it |
| Subgraph.NormalizeAddressIdempotent | src/services/subgraph.ts:47-53 | normalising twice equals normalising once |
| Subgraph.NormalizeAddressIgnoresCase | src/services/subgraph.ts:47-53 | addresses equal up to case normalise alike |
| Subgraph.ScalarToString | src/services/subgraph.ts:56-59 | null maps to null; a string stays; a number becomes its decimal string |
| Subgraph.ScalarToStringOrEmpty | src/services/subgraph.ts:65 | a missing value becomes ""; otherwise as ScalarToString |
| Subgraph.MimeTypeAt | src/services/subgraph.ts:137 | mimetype i when present and non-empty, otherwise "image/jpeg"; never empty |
| Subgraph.TransformUser | src/services/subgraph.ts:62-69 | flags and ids are copied; registeredAt is stringified or "", the optional timestamps keep null |
| Subgraph.TransformCleanupParticipant | src/services/subgraph.ts:72-84 | fields copied, timestamps stringified preserving null, linked to the given cleanup |
| Subgraph.TransformCleanup | src/services/subgraph.ts:87-123 | participants default to [] and each links to this cleanup; medias is []; proof-of-work media and count are absent without proof, else one ipfs.io URL per hash |
| Subgraph.TransformStreakSubmission | src/services/subgraph.ts:126-141 | one media entry per ipfs hash with hash i, mimetype i or "image/jpeg", id "<id>-media-i" and index "i" |
| Subgraph.IndexedIdsDistinct | src/services/subgraph.ts:135 | different indices give different "<prefix>i" strings |
| Subgraph.StreakMediaWellIndexed | src/services/subgraph.ts:134-139 | media ids are pairwise distinct and each index reads back as its position |
| Subgraph.TransformCleanupUpdate | src/services/subgraph.ts:229-235 | id and metadata copied; addedAt and blockNumber stringified or "" |
| Subgraph.PagedVariables | src/services/subgraph.ts:148-153 | first and skip are passed through; orderBy and direction default to the given field and "desc" |
| Subgraph.StreakSubmissionsVariables | src/services/subgraph.ts:144-164 | where is attached iff status or user is set; status whenever defined (0 included); user only when non-empty, normalised |
| Subgraph.CleanupsVariables | src/services/subgraph.ts:186-209 | where is attached iff status, organizer or published is set; false and 0 are included; organizer normalised |
| Subgraph.CleanupUpdatesVariables | src/services/subgraph.ts:237-251 | defaults to first 100 ordered by addedAt desc, always filtered by the cleanup id |
| Subgraph.UsersVariables | src/services/subgraph.ts:260-286 | where is attached iff some filter is set; booleans and kycStatus whenever defined; referrer only when non-empty, normalised |
| Subgraph.UserQueryId | src/services/subgraph.ts:299 | the id looked up is lower-case, starts with "0x" and is already normalised |
| Subgraph.StreakSubmissionsResult | src/services/subgraph.ts:169 | each returned submission is transformed, in order |
| Subgraph.StreakSubmissionResult | src/services/subgraph.ts:172-183 | null stays null; otherwise the transformed submission |
| Subgraph.CleanupsResult | src/services/subgraph.ts:215 | each returned cleanup is transformed, in order |
| Subgraph.CleanupResult | src/services/subgraph.ts:218-226 | null stays null; otherwise the transformed cleanup |
| Subgraph.UsersResult | src/services/subgraph.ts:292 | each returned user is transformed, in order |
| Subgraph.UserResult | src/services/subgraph.ts:295-303 | null stays null; otherwise the transformed user |
| Subgraph.CleanupUpdatesResult | src/services/subgraph.ts:256 | each returned update is transformed, in order |
| UseCleanups.PageRequest | src/hooks/useCleanups.ts:9-15 | each page asks for PAGE_SIZE rows from pageParam, ordered createdAt desc |
| UseCleanups.PageVariables | src/hooks/useCleanups.ts:9-15 | the variables sent for a page carry PAGE_SIZE, the skip and createdAt desc |
| UseCleanups.CleanupQuery | src/hooks/useCleanups.ts:25-31 | no id gives no cleanup; otherwise the fetched cleanup |
| UseCleanups.CleanupUpdatesQuery | src/hooks/useCleanups.ts:33-38 | no id gives []; otherwise the fetched updates |
| UseCleanups.EnabledQueriesHaveId | src/hooks/useCleanups.ts:25-38 | an enabled query always fetches with its id |
| UseStreakSubmissions.PageRequest | src/hooks/useStreakSubmissions.ts:12-18 | each page asks for PAGE_SIZE rows from pageParam, ordered submittedAt desc |
| UseStreakSubmissions.PageVariables | src/hooks/useStreakSubmissions.ts:12-18 | the variables sent for a page carry PAGE_SIZE, the skip and submittedAt desc |
| UseStreakSubmissions.SubmissionQuery | src/hooks/useStreakSubmissions.ts:28-34 | a null id yields null; otherwise the fetched submission |
| UseStreakSubmissions.EnabledQueryHasId | src/hooks/useStreakSubmissions.ts:28-34 | an enabled query always fetches with its id |
| UseUsers.PageRequest | src/hooks/useUsers.ts:9-15 | each page asks for PAGE_SIZE rows from pageParam, ordered registeredAt desc |
| UseUsers.PageVariables | src/hooks/useUsers.ts:9-15 | the variables sent for a page carry PAGE_SIZE, the skip and registeredAt desc |
| UseUsers.UserQuery | src/hooks/useUsers.ts:25-31 | a null id yields null; otherwise the fetched user |
| UseUsers.EnabledQueryHasId | src/hooks/useUsers.ts:25-31 | an enabled query always fetches with its id |
| InfinitePaging.NextPageParam | src/hooks/useCleanups.ts:16-19 | no next page iff the last page is short; otherwise the next skip is pages loaded × PAGE_SIZE |
| InfinitePaging.FullPagesRowCount | src/hooks/useCleanups.ts:16-18 | full pages hold pages × PAGE_SIZE rows |
| InfinitePaging.NextSkipIsLoadedRows | src/hooks/useCleanups.ts:16-21 | the next skip equals the number of rows already loaded, so windows are consecutive and do not overlap |
| InfinitePaging.NextPageKeepsLoaded | src/hooks/useCleanups.ts:9-21 | fetching the next page keeps the loaded pages well formed |
| InfiniteScrollTable.Rows | src/components/InfiniteScrollTable.tsx:45 | rows are all pages concatenated in page order, none without data |
| InfiniteScrollTable.Render | src/components/InfiniteScrollTable.tsx:47-100 | loading wins; empty iff not loading and no rows; a table shows the sentinel iff hasNextPage and "Loading more" iff fetching |
| InfiniteScrollTable.FetchOnlyFromTable | src/components/InfiniteScrollTable.tsx:26-28 | a fetch fires only from a rendered table whose sentinel intersects, with a next page and no fetch in flight |
| InfiniteScrollTable.RowsAreLoadedRows | src/components/InfiniteScrollTable.tsx:45 | a row is shown iff it is in some loaded page |
| Pagination.PageLabel | src/components/Pagination.tsx:35 | the label shows totalPages, or 1 when it is 0 |
| Pagination.ShowingRange | src/components/Pagination.tsx:18-19 | endItem never exceeds totalItems; a non-empty page shows between 1 and pageSize items; zero items reads 1 to 0 |
| Pagination.NavigationStaysInRange | src/components/Pagination.tsx:29-40 | enabled Previous asks for a page ≥ 1 and enabled Next for a page ≤ totalPages |
| EmailPage.Filtered | src/pages/EmailPage.tsx:46-55 | no status gives []; otherwise the order-preserving filter of the entries |
| EmailPage.EmptySearchKeepsAll | src/pages/EmailPage.tsx:46-48 | an empty search keeps every entry in order |
| EmailPage.SearchIgnoresCase | src/pages/EmailPage.tsx:49-53 | an entry is kept iff its lower-cased key or value contains the lower-cased query; the query's case does not matter |
| EmailPage.TotalPages | src/pages/EmailPage.tsx:57-58 | the page count is the ceiling of entries / pageSize |
| EmailPage.PageSliceBounds | src/pages/EmailPage.tsx:59-62 | a page holds at most pageSize entries, taken consecutively from (page−1)·size; every page up to the count is non-empty |
| EmailPage.PaginationShownIffOverflow | src/pages/EmailPage.tsx:117 | the pagination control renders iff the entries do not fit on one page |
| EmailPage.EmailPage.constructor | src/pages/EmailPage.tsx:11-13 | empty search, page 1, page size 25 |
| EmailPage.EmailPage.Logout | src/pages/EmailPage.tsx:23-27 | search "" and page 1; both email storage entries are removed |
| Format.FormatAddress | src/helpers/format.ts:3-7 | "" for a missing or empty address, unchanged below 10 characters, else 6 + "..." + 4 characters (length 13) |
| Format.FormatAddressIdempotent | src/helpers/format.ts:3-7 | shortening a shortened address changes nothing |
| Format.FormatDate | src/helpers/format.ts:9-18 | a missing or empty timestamp reads "N/A" |
| Format.StreakStatusTables | src/helpers/format.ts:20-44 | statuses 0–2 get distinct labels and badge classes; any other status is "Unknown" with the bare badge |
| Format.CleanupAndKycTables | src/helpers/format.ts:46-76 | cleanup statuses 0–4 and KYC statuses 0–3 get distinct labels; anything else is "Unknown" |
| BankFormat.Shorten | src/pages/BankPage.tsx:68-72 | "-" when missing, unchanged up to 2·len characters, else len + "..." + len characters |
| BankFormat.ShortenLengthensJustOverLimit | src/pages/BankPage.tsx:68-72 | shortening shortens only from 2·len+3 characters; just over the limit it lengthens the text |
| BankFormat.StatusColor | src/pages/BankPage.tsx:99-105 | case-insensitive: completed green, pending or pending_payment orange, failed red, else grey |
| BankFormat.StatusColorIgnoresCase | src/pages/BankPage.tsx:99-105 | statuses equal up to case get the same colour |
| BankFormat.StatusText | src/pages/BankPage.tsx:231 | every "_" of the status becomes a space and every other character stays; no "_" is left |
| BankFormat.StatusTextStable | src/pages/BankPage.tsx:231 | the shown text is shown unchanged, and statuses differing only in "_" against " " read the same |
| TransactionDetailPage.StatusText | src/pages/TransactionDetailPage.tsx:130 | the header badge (and the details card, line 161) shows every "_" as a space and keeps the rest: the list's text |
| BankPage.TransferRefCell | src/pages/BankPage.tsx:302 | "-" when missing, unchanged up to 12 characters, else the first 12 + "..." |
| BankPage.TxHashCell | src/pages/BankPage.tsx:68-72 | the hash cell (`formatAddress(hash, 6)`, line 281): "-" when missing, unchanged up to 12 characters, else the first 6 and last 6 characters around "..." |
| BankPage.StatusClass | src/pages/BankPage.tsx:217 | "status-badge " followed by the lower-cased status with every "_" replaced by "-" |
| BankPage.TransactionSearch | src/pages/BankPage.tsx:414-433 | the search ignores case, and absent optional fields never match |
| BankPage.RateSearch | src/pages/BankPage.tsx:451-462 | the rate search ignores case, and an empty search keeps every rate |
| BankPage.TransactionStats | src/pages/BankPage.tsx:543-560 | the counters are the sizes of the completed, pending and failed filters |
| BankPage.UpperCaseIsLowerCase | src/pages/BankPage.tsx:545-559 | the upper-case alternatives in the counters are subsumed by the lower-cased comparison |
| BankPage.StatsBounded | src/pages/BankPage.tsx:543-560 | completed + pending + failed ≤ total, and each counted transaction has that colour |
| BankPage.PageTransactions | src/pages/BankPage.tsx:66 | as written the page reads `.data` of the hook's result, or [] |
| BankPage.ListAlwaysEmptyAsWritten | src/pages/BankPage.tsx:66 | whenever the hook yields a list, the page shows no transactions |
| BankPage.ListEmptyWitness | src/pages/BankPage.tsx:66 | a one-transaction response is listed by the hook and shown empty by the page |
| BankPage.PageTransactionsCorrected | src/pages/BankPage.tsx:66 | the corrected page reads the hook's result itself, or [] |
| BankPage.CorrectedListsEnvelopeData | src/pages/BankPage.tsx:66 | corrected, the page lists exactly the transactions the service sent |
| BankPage.BankPage.constructor | src/pages/BankPage.tsx:29-40 | the transactions tab, empty filters, modals closed |
| BankPage.BankPage.Logout | src/pages/BankPage.tsx:474-486 | tab, search, status, dates and modals reset; both bank storage entries are removed |
| TransactionDetailPage.FindById | src/pages/TransactionDetailPage.tsx:13-15 | a found transaction is in the list with the route id; none iff there is no id or no match |
| TransactionDetailPage.FindByIdFirst | src/pages/TransactionDetailPage.tsx:13-15 | the first transaction with the id is the one found |
| TransactionDetailPage.FindIn | src/pages/TransactionDetailPage.tsx:13-15 | `?.find` on a JSON value: nothing for undefined or null, the first match in an array, a TypeError for any other object or falsy value |
| TransactionDetailPage.Render | src/pages/TransactionDetailPage.tsx:13-102 | a lookup that throws crashes the page, loading or not; otherwise loading first, then not-found without a transaction, else its details |
| TransactionDetailPage.AlwaysNotFoundAsWritten | src/pages/TransactionDetailPage.tsx:13 | as written, every settled lookup of a listed response renders not-found |
| TransactionDetailPage.NotFoundWitness | src/pages/TransactionDetailPage.tsx:13 | a one-transaction list whose id is routed still renders not-found |
| TransactionDetailPage.CorrectedFindsListed | src/pages/TransactionDetailPage.tsx:13-15 | corrected, the first listed transaction with the routed id is shown |
| TransactionDetailPage.NonArrayDataCrashes | src/pages/TransactionDetailPage.tsx:13-15 | an envelope whose `data` is an object or a falsy non-null value such as 0 reaches the page unchanged, and `find` on it throws: the page crashes |
| TransactionDetailPage.FormatAmount | src/pages/TransactionDetailPage.tsx:29-37 | undefined, "", 0 and NaN read "N/A"; a string is parsed and shown verbatim when it parses to NaN; any other number is formatted |
| TransactionDetailPage.StringAmountsShownOrFormatted | src/pages/TransactionDetailPage.tsx:29-37 | on the converted-amount path (line 240) a non-numeric text is shown as it is, and "0" is formatted where the number 0 reads "N/A" |
| TransactionDetailPage.FormatAddressMatchesListPage | src/pages/TransactionDetailPage.tsx:17-22 | the detail page shortens a present address exactly as the list page (src/pages/BankPage.tsx:68-72) does; a missing one reads "N/A" here and "-" on the list |
| TransactionDetailPage.FormatB3TR | src/pages/TransactionDetailPage.tsx:60-76 | "N/A" when missing or unparsable; a wei string becomes the BigInt quotient by 10^18 plus the remainder over 1e18, as a number, and is formatted with " B3TR"; when `BigInt` throws, parseFloat's number is used instead |
| TransactionDetailPage.ZeroAmountReadsNotAvailable | src/pages/TransactionDetailPage.tsx:61 | an amount of "0" reads "N/A B3TR" |
| UseBank.DataField | src/hooks/useBank.ts:43 | `.data` of an object, absent for anything else |
| UseBank.OrEmptyList | src/hooks/useBank.ts:43 | `\|\| []`: a missing or falsy value becomes [], anything else is kept |
| UseBank.OptionalParam | src/hooks/useBank.ts:25-33 | a parameter is appended only when its value is non-empty |
| UseBank.FilterParams | src/hooks/useBank.ts:25-33 | one pair per non-empty filter and no other, carrying that filter's value, at the position the order status, startDate, endDate gives it |
| UseBank.TransactionsParams | src/hooks/useBank.ts:23-33 | limit=100 first; after it exactly one pair per non-empty filter, carrying that filter's value, in the order status, startDate, endDate |
| UseBank.TransactionsQueryString | src/hooks/useBank.ts:23-35 | the appended parameters serialise to the query string |
| UseBank.TransactionsQueryShape | src/hooks/useBank.ts:23-35 | the query starts with "limit=100" and has one "&" per non-empty filter |
| UseBank.LimitEncoding | src/hooks/useBank.ts:24 | the limit parameter encodes as "limit=100" |
| UseBank.TransactionsResult | src/hooks/useBank.ts:43 | the envelope's data when it is a list or an object, [] when the envelope has no data or a falsy one (`{}`, `{ data: null }`) and when the body is not an envelope |
| UseBank.RatesSource | src/hooks/useBank.ts:76-80 | the envelope's data if a list, else the body if a list, else [] |
| UseBank.RatesResult | src/hooks/useBank.ts:83-89 | each rate maps code to id and currencyCode, name, symbol and the rate as a string; length and order kept |
| UseBank.RatesEnvelopeOrArray | src/hooks/useBank.ts:76-89 | an envelope and a bare list of the same rates give the same result; an envelope without data gives [] |
| UseBank.AtMostOneQueryEnabled | src/hooks/useBank.ts:45-91 | the transactions query (line 45) and the exchange-rates query (line 91) are never enabled together, and neither without a key or an active tab |
| UseBank.SetExchangeRate | src/hooks/useBank.ts:102-122 | one POST to the exchange-rate path with the form's fields and the parsed rate |
| UseBank.EditingDoesNotMatter | src/hooks/useBank.ts:102-122 | create and edit send the same request |
| UseBank.DeleteExchangeRate | src/hooks/useBank.ts:130-136 | one DELETE to the path ending in the currency code |
| UrlSearchParams.Serialize | src/hooks/useKyc.ts:27 | no parameters serialise to "" and any parameter to a non-empty string |
| UrlSearchParams.EncodedHasNo | src/hooks/useKyc.ts:27-30 | a form-encoded value contains no reserved character such as "&", "=" or "?" |
| UrlSearchParams.SerializeSeparators | src/hooks/useKyc.ts:27 | n pairs serialise with n−1 "&" and n "=" |
| UrlSearchParams.SearchParams.constructor | src/hooks/useKyc.ts:17 | a new builder holds no parameters |
| UrlSearchParams.SearchParams.Append | src/hooks/useKyc.ts:18-26 | append adds the pair at the end |
| UrlSearchParams.SearchParams.ToString | src/hooks/useKyc.ts:27 | toString serialises the pairs in order |
| UseKyc.SubmissionsParams | src/hooks/useKyc.ts:17-26 | empty iff every filter is empty; otherwise exactly one pair per non-empty filter, carrying its value, in the order status, startDate, endDate |
| UseKyc.SubmissionsEndpoint | src/hooks/useKyc.ts:17-30 | the endpoint is the path, followed by "?" and the query only when the query is non-empty |
| UseKyc.EndpointHasQueryIffFiltered | src/hooks/useKyc.ts:27-30 | the endpoint contains "?" iff some filter is set |
| UseKyc.PathHasNoQuestionMark | src/hooks/useKyc.ts:28-30 | the bare path has no "?" |
| UseKyc.SubmissionsResult | src/hooks/useKyc.ts:38 | a list body is returned as is; anything else gives [] |
| UseKyc.DetailsPath | src/hooks/useKyc.ts:52-54 | the details path exists iff there is a non-empty id; otherwise the query throws |
| UseKyc.EnabledDetailsHavePath | src/hooks/useKyc.ts:52-63 | an enabled details query never throws for want of an id |
| UseKyc.DetailsNeedKey | src/hooks/useKyc.ts:40-63 | an enabled details query implies an enabled list query; without the key neither runs |
| UseKyc.UpdateStatusRequest | src/hooks/useKyc.ts:83-91 | reviewedBy is "admin"; id, status and reason are passed through |
| KycPage.SearchIgnoresCase | src/pages/KycPage.tsx:110-121 | the submission search ignores the query's case, and an empty search keeps everything |
| KycPage.SubmissionStats | src/pages/KycPage.tsx:199-207 | the counters are the sizes of the exact "PENDING", "VERIFIED" and "REJECTED" filters |
| KycPage.StatsBounded | src/pages/KycPage.tsx:199-207 | pending + verified + rejected ≤ total |
| KycPage.DetailsId | src/pages/KycPage.tsx:50-52 | details are requested iff a submission with a non-empty id is selected |
| KycPage.KycPage.constructor | src/pages/KycPage.tsx:31-38 | empty filters, nothing selected, modals closed |
| KycPage.KycPage.Approve | src/pages/KycPage.tsx:152-166 | no-op without a selection; otherwise "VERIFIED" for the selected id |
| KycPage.KycPage.Reject | src/pages/KycPage.tsx:168-183 | no-op without a selection; otherwise "REJECTED" with the reason |
| KycPage.KycPage.SettleApprove | src/pages/KycPage.tsx:160-163 | on success the modal closes and the selection clears; on error nothing changes |
| KycPage.KycPage.SettleReject | src/pages/KycPage.tsx:177-180 | on success the modal closes and the selection clears; on error nothing changes |
| KycPage.KycPage.Logout | src/pages/KycPage.tsx:133-144 | filters, selection and modals reset; both KYC storage entries are removed |
| KycDetailPage.StatusBadgeClass | src/pages/KycDetailPage.tsx:34-45 | case-insensitive badge: pending, approved as verified, rejected, else the bare badge |
| KycDetailPage.StatusLabel | src/pages/KycDetailPage.tsx:47-58 | case-insensitive label; an unknown status is shown verbatim |
| KycDetailPage.PayloadId | src/pages/KycDetailPage.tsx:63 | the id, falling back to submissionId when it is missing or empty |
| KycDetailPage.ApprovePayload | src/pages/KycDetailPage.tsx:60-66 | fallback id, lower-case "approved", no reason |
| KycDetailPage.RejectPayload | src/pages/KycDetailPage.tsx:74-80 | fallback id, lower-case "rejected", the reason |
| KycDetailPage.StatusVocabulariesDiffer | src/pages/KycDetailPage.tsx:60-109 | the two KYC pages never both offer actions for one status; "VERIFIED" gets the bare badge here; the statuses this page sends are counted by none of the list page's counters |
| KycDetailPage.CapitalizeWords | src/pages/KycDetailPage.tsx:233 | same length; exactly the word-initial letters are upper-cased |
| KycDetailPage.DocumentTypeText | src/pages/KycDetailPage.tsx:233 | "N/A" when missing; otherwise the first "_" becomes a space, then words are capitalised |
| KycDetailPage.OnlyFirstUnderscoreReplaced | src/pages/KycDetailPage.tsx:233 | for every type holding "_": the shown text keeps its length, the first "_" reads as a space, every later character is capitalised only where a word starts, and a later "_" stays with the character after it unchanged |
| KycRejectModal.Confirmed | src/components/KycRejectModal.tsx:23-24 | confirms iff the reason is not all whitespace, handing over the trimmed, non-empty reason |
| KycRejectModal.EnabledSubmitConfirms | src/components/KycRejectModal.tsx:78 | an enabled submit button always confirms |
| KycRejectModal.RejectDialog.constructor | src/components/KycRejectModal.tsx:19 | the reason starts empty |
| KycRejectModal.RejectDialog.Edit | src/components/KycRejectModal.tsx:47 | typing sets the reason |
| KycRejectModal.RejectDialog.Submit | src/components/KycRejectModal.tsx:21-27 | hands over Confirmed(reason) and clears the reason only when confirmed |
| KycRejectModal.RejectDialog.Close | src/components/KycRejectModal.tsx:29-32 | closing clears the reason |
| UpdateReferralCodeModal.ValidateReferralCode | src/components/UpdateReferralCodeModal.tsx:26-47 | checks in order: empty, shorter than 2, longer than 50, each with its message; an accepted code is trimmed |
| UpdateReferralCodeModal.AcceptedIffLengthInRange | src/components/UpdateReferralCodeModal.tsx:29-43 | accepted iff 2 ≤ trimmed length ≤ 50, so exactly 50 is accepted |
| UpdateReferralCodeModal.AcceptedCodeIsStable | src/components/UpdateReferralCodeModal.tsx:27-46 | re-validating an accepted code accepts the same code |
| UpdateReferralCodeModal.EnabledConfirmPassesEmptyCheck | src/components/UpdateReferralCodeModal.tsx:112 | with the confirm button enabled nothing is loading and only the length checks can reject the code |
| UpdateReferralCodeModal.ReferralDialog.constructor | src/components/UpdateReferralCodeModal.tsx:23-24 | code and error start empty |
| UpdateReferralCodeModal.ReferralDialog.Edit | src/components/UpdateReferralCodeModal.tsx:83-86 | typing sets the code and clears the error |
| UpdateReferralCodeModal.ReferralDialog.Confirm | src/components/UpdateReferralCodeModal.tsx:26-47 | hands over the trimmed code and clears the error on acceptance; on failure sets the message and hands over nothing |
| UpdateReferralCodeModal.ReferralDialog.Close | src/components/UpdateReferralCodeModal.tsx:49-53 | closing resets the code and the error |
| UseUserRegistry.SetUserReferralCode | src/hooks/useUserRegistry.ts:24-44 | throws, in order: no wallet, no registry address, no user or blank code; otherwise one clause with [userAddress, trimmed code] |
| UseUserRegistry.DialogCodeReachesContract | src/hooks/useUserRegistry.ts:37-42 | a code the dialog accepts reaches the contract unchanged |
| ApiKeyContext.WithKey | src/contexts/ApiKeyContext.tsx:55-60 | the named service gets the value and the other two keep theirs |
| ApiKeyContext.LoadKeys | src/contexts/ApiKeyContext.tsx:15-34 | all three keys always; each "" when stored as absent or empty; all "" without an entry or when parsing fails |
| ApiKeyContext.LoadRestoresSaved | src/contexts/ApiKeyContext.tsx:36-38 | with a faithful JSON round trip a saved record loads back |
| ApiKeyContext.LoadWithoutEntry | src/contexts/ApiKeyContext.tsx:29-33 | without the entry every key is "" |
| ApiKeyContext.ApiKeyProvider.constructor | src/contexts/ApiKeyContext.tsx:45-53 | the keys are loaded from storage |
| ApiKeyContext.ApiKeyProvider.SetApiKey | src/contexts/ApiKeyContext.tsx:55-61 | only the named key changes and the record is persisted, so a reload returns it; a refused write is swallowed |
| ApiKeyContext.ApiKeyProvider.ClearApiKey | src/contexts/ApiKeyContext.tsx:63-75 | all keys become "" and the entry is removed, so a reload gives no keys; a refused removal is swallowed |
| Auth.ServiceName | src/lib/auth.ts:3 | the service names have lengths 3, 4 and 5, which keeps the entries apart |
| Auth.EntryNames | src/lib/auth.ts:1-16 | the entries are "admin_api_key_" + service and that + "_url" |
| Auth.EntriesDistinct | src/lib/auth.ts:1-30 | the six entries are pairwise distinct, and none is "admin_api_keys" |
| Auth.AllEntriesDistinct | src/lib/auth.ts:1-30 | the same, for all services at once |
| Auth.DefaultBaseUrl | src/lib/auth.ts:20-25 | email defaults to localhost:3000, kyc and bank to localhost:3002 |
| Auth.GetBaseUrl | src/lib/auth.ts:15-26 | the stored URL when non-empty, else the default; never "" |
| Auth.SetApiKey | src/lib/auth.ts:7-9 | writes the key entry; the other keys and every base URL are unchanged |
| Auth.ClearApiKey | src/lib/auth.ts:11-13 | removes the key entry only, so the "_url" entry survives |
| Auth.SetBaseUrl | src/lib/auth.ts:28-30 | writes the URL entry; a non-empty URL is read back; no key changes |
| Auth.SetThenGet | src/lib/auth.ts:3-13 | a set key reads back, a cleared key reads null, and clearing keeps the base URL |
| Api.Headers | src/lib/api.ts:11-18 | exactly Content-Type application/json and the configured x-api-key |
| Api.ErrorMessage | src/lib/api.ts:21-36 | the body's message, else statusText, else "HTTP error! status: n"; no response gives the network message; otherwise "Request error: " + message |
| Api.ErrorMessageNeverEmpty | src/lib/api.ts:24-34 | every translated message is non-empty, and the fallback names the status code |
| Api.UseApiClient | src/hooks/useApiClient.ts:5-14 | a configuration exists iff the service's key is non-empty, with its base URL and key; no file calls this hook, so it shows what the hook would build, not what any request uses |
| CredentialFlow.PromptWrites | src/pages/BankPage.tsx:468-472 | the prompt writes the key and URL entries and leaves "admin_api_keys" as it was |
| CredentialFlow.Authenticate | src/pages/BankPage.tsx:468-472 | the storage afterwards is PromptWrites of the old entries |
| CredentialFlow.PromptNeverSignsIn | src/hooks/useServiceAuth.ts:4-9 | as written, the prompt changes no service's signed-in state, though the configuration `useApiClient` would build (a hook nothing calls) becomes available |
| CredentialFlow.PromptLoopsOnFreshBrowser | src/hooks/useServiceAuth.ts:4-9 | in an empty browser, entering a key leaves the page signed out |
| CredentialFlow.LogoutWrites | src/pages/BankPage.tsx:483-484 | logout removes the key and URL entries and leaves "admin_api_keys" as it was |
| CredentialFlow.LogoutNeverSignsOut | src/pages/KycPage.tsx:141-143 | as written, logging out leaves the signed-in state unchanged, while the configuration `useApiClient` would build disappears |
| CredentialFlow.PromptWritesCorrected | src/contexts/ApiKeyContext.tsx:55-61 | the corrected prompt also rewrites the context record with the new key |
| CredentialFlow.CorrectedPromptSignsIn | src/hooks/useServiceAuth.ts:4-9 | corrected, the service is signed in iff the key is non-empty, the others unchanged, and the configuration `useApiClient` would build has the key and the URL passed to the handler |
| CredentialFlow.PromptSubmit | src/components/ApiKeyPrompt.tsx:21-28 | an empty trimmed key writes nothing; any other key runs the handler |
| CredentialFlow.PromptStoresUndefinedUrl | src/components/ApiKeyPrompt.tsx:5-28 | as written, the handler receives no URL, so the key is stored trimmed and `getBaseUrl` (and the configuration `useApiClient` would build) reads "undefined" |
| CredentialFlow.UndefinedUrlWitness | src/pages/EmailPage.tsx:135 | on a fresh browser, after the email prompt, the page's "Base URL" line reads "undefined" instead of the default "http://localhost:3000" |
| CredentialFlow.PromptSubmitCorrected | src/components/ApiKeyPrompt.tsx:21-28 | corrected, an empty trimmed key writes nothing and any other key is written alone |
| CredentialFlow.CorrectedPromptKeepsBaseUrl | src/lib/auth.ts:15-26 | corrected, the stored URL, or the default on a fresh browser, is kept, and the configuration `useApiClient` would build has it with the trimmed key |
| CredentialFlow.LogoutWritesCorrected | src/contexts/ApiKeyContext.tsx:55-61 | the corrected logout also blanks the key in the context record |
| CredentialFlow.CorrectedLogoutSignsOut | src/hooks/useServiceAuth.ts:4-9 | corrected, logout signs the service out, keeps the others, and the configuration `useApiClient` would build disappears |

## Definitions

The table above lists every member that carries a contract. The predicates and small
functions below have none of their own; each is stated by the members named beside it.

| definition | source | stated by |
|---|---|---|
| BankPage.OptionalIncludes, BankPage.TransactionMatches | src/pages/BankPage.tsx:414-431 | BankPage.TransactionSearch |
| BankPage.RateMatches | src/pages/BankPage.tsx:451-462 | BankPage.RateSearch |
| BankPage.FormatAddress | src/pages/BankPage.tsx:68-72 | BankFormat.Shorten, BankPage.TxHashCell, TransactionDetailPage.FormatAddressMatchesListPage |
| KycPage.SubmissionMatches | src/pages/KycPage.tsx:110-121 | KycPage.SearchIgnoresCase |
| EmailPage.EntryMatches, EmailPage.Matches | src/pages/EmailPage.tsx:46-56 | EmailPage.Filtered, EmailPage.EmptySearchKeepsAll, EmailPage.SearchIgnoresCase |
| EmailPage.PageSlice | src/pages/EmailPage.tsx:59-62 | EmailPage.PageSliceBounds |
| EmailPage.ShowsPagination | src/pages/EmailPage.tsx:117 | EmailPage.PaginationShownIffOverflow |
| CleanupsPage.Windowed | src/pages/CleanupsPage.tsx:45-66 | CleanupsPage.BoundsInclusive, DateWindow.WindowedRows |
| StreaksPage.Windowed | src/pages/StreaksPage.tsx:55-78 | StreaksPage.CardsExact, DateWindow.WindowedRows |
| StreaksPage.ShowsRowActions | src/pages/StreaksPage.tsx:166 | StreaksPage.RowActionsMatchDetailPage |
| Format.StatusLabel, Format.StatusColor | src/helpers/format.ts:20-44 | Format.StreakStatusTables |
| Format.CleanupStatusLabel, Format.KycStatusLabel | src/helpers/format.ts:46-76 | Format.CleanupAndKycTables |
| TransactionDetailPage.FormatAddress | src/pages/TransactionDetailPage.tsx:17-22 | BankFormat.Shorten, TransactionDetailPage.FormatAddressMatchesListPage |
| TransactionDetailPage.StatusColor | src/pages/TransactionDetailPage.tsx:51-58 | BankFormat.StatusColor (the list page's function, which this copy equals) |
| TransactionDetailPage.Lookup | src/pages/TransactionDetailPage.tsx:13-15 | TransactionDetailPage.FindIn, TransactionDetailPage.AlwaysNotFoundAsWritten, TransactionDetailPage.NotFoundWitness, TransactionDetailPage.NonArrayDataCrashes |
| TransactionDetailPage.LookupCorrected | src/pages/TransactionDetailPage.tsx:13-15 | TransactionDetailPage.FindIn, TransactionDetailPage.CorrectedFindsListed |
| Pagination.StartItem, Pagination.EndItem | src/components/Pagination.tsx:18-19 | Pagination.ShowingRange |
| Pagination.PreviousDisabled, Pagination.NextDisabled, Pagination.PreviousPage, Pagination.NextPage | src/components/Pagination.tsx:29-40 | Pagination.NavigationStaysInRange |
| InfiniteScrollTable.TriggersFetch | src/components/InfiniteScrollTable.tsx:26-28 | InfiniteScrollTable.FetchOnlyFromTable |
| Auth.KeyEntry, Auth.UrlEntry | src/lib/auth.ts:1-16 | Auth.EntryNames, Auth.EntriesDistinct, Auth.AllEntriesDistinct |
| Auth.GetApiKey | src/lib/auth.ts:3-5 | Auth.SetApiKey, Auth.ClearApiKey, Auth.SetThenGet |
| UseRewardsManager.ErrorMessage | src/hooks/useRewardsManager.ts:43-49 | UseRewardsManager.WalletCheckedFirst |
| UseBank.QueryEnabled | src/hooks/useBank.ts:45 | UseBank.AtMostOneQueryEnabled |
| UseBank.MapRate | src/hooks/useBank.ts:83-89 | UseBank.RatesResult |
| UseKyc.ListEnabled, UseKyc.DetailsEnabled | src/hooks/useKyc.ts:40-63 | UseKyc.DetailsNeedKey, UseKyc.EnabledDetailsHavePath |
| UseCleanups.DetailEnabled | src/hooks/useCleanups.ts:25-38 | UseCleanups.EnabledQueriesHaveId |
| UseStreakSubmissions.DetailEnabled | src/hooks/useStreakSubmissions.ts:28-34 | UseStreakSubmissions.EnabledQueryHasId |
| UseUsers.DetailEnabled | src/hooks/useUsers.ts:25-31 | UseUsers.EnabledQueryHasId |
| KycRejectModal.SubmitDisabled | src/components/KycRejectModal.tsx:78 | KycRejectModal.EnabledSubmitConfirms |
| UpdateReferralCodeModal.ConfirmDisabled | src/components/UpdateReferralCodeModal.tsx:112 | UpdateReferralCodeModal.EnabledConfirmPassesEmptyCheck |

## Left out

- Rendering: JSX, styling, the presentational components and pages listed as display-only (Header, SearchBar, FilterBar, DateRangeFilter, the ui primitives, StreakCard, ExchangeRateModal, CleanupDetailPage, UserDetailPage, App, main) are not modelled; they hold no decision rule beyond "show X when Y".
- Network I/O: the GraphQL requests, the axios instances, react-query caching, invalidation and refetch intervals are not modelled; responses are inputs of the result functions.
- Wallet and contract plumbing: sending a transaction, building clauses from the ABI and the on-chain effects are not modelled; a mutation's outcome is the clause list it would send.
- useStreakMutations.ts and useCleanupMutations.ts are not part of this model: after the wallet check they only forward their parameters.
- Library conversions (viem's formatEther, parseEther and parseUnits, BigInt, Number, parseFloat, JSON parse and stringify, Date parsing, toLocaleString) are function parameters with no interpretation; round trips are stated as preconditions where needed.
- Floating point: `parseFloat(x) > 0` is an abstract positivity predicate, and `Intl.NumberFormat`, `toFixed(6)` and the `Number(q) + Number(r)/1e18` display arithmetic are not modelled.
- Dates: the window bounds of the Streaks and Cleanups pages are inputs (the start and end of day in seconds); `new Date(…)` is not modelled.
- Letter case: `toLowerCase`/`toUpperCase` act on ASCII letters only and `trim` on a fixed set of whitespace characters; non-ASCII case mapping is not modelled.
- UpdateReferralCodeModal.ValidateReferralCode: lengths and positions are counted in characters (Unicode scalar values), not in the UTF-16 code units that JavaScript's `.length`, `slice` and `substring` count. The two agree on text within the Basic Multilingual Plane; outside it they differ (one emoji is one character but two code units), so a code of 26 emoji is accepted here and rejected in the source, and a one-emoji code the other way round. The same holds for Format.FormatAddress, BankFormat.Shorten, BankPage.TransferRefCell, BankPage.TxHashCell and the other length and slice rules over user text.
- Browser APIs: IntersectionObserver (only its callback's condition is modelled), clipboard and `window.location.reload` after logout are not modelled.
- Storage: a write or removal either succeeds or is refused as a whole (the `writable` flag); quota details and cross-tab updates are not modelled.
- StreakCartContext.StreakCartProvider.Persist: a refused write leaves the storage unchanged and the provider running, while the source's effect (src/contexts/StreakCartContext.tsx:40-42) has no `try`, so there the exception would reach React's error handling, which is not modelled.
- EmailPage: status values are taken in their `String(value)` form; String conversion of non-string JSON values is not modelled.
- PAGE_SIZE and the contract addresses come from a configuration module that is not part of this model; they are parameters.
- The KYC and bank tables' own pagination (tanstack table page state) is not modelled; only their filter predicates are.
- The KYC list page's `status-badge ${status.toLowerCase()}` row class and the Streaks and Cleanups pages' clear-date-range handlers are not modelled; they only render or reset inputs.
- The ExchangeRate create/edit/delete modal handlers are not modelled beyond the requests UseBank builds.
- The cleanup list's startDate/endDate filters reach the subgraph service but are not turned into `where` keys there; the model shows this (CleanupsPage.PageVariables) rather than treating it as a bug.
- Reachability of the page cart: `handleAddToStreakCart` (src/pages/RewardsManagerPage.tsx:371) is defined but nothing on the page calls it, so the page-local cart only ever holds what other handlers leave there; the model states the handler's effect and does not model which handlers the page wires up.
- RewardsManagerPage.RewardsManagerPage.RecipientChange and RewardsManagerPage.RewardsManagerPage.ParticipantChange require an index of an existing row: the page only passes the index of a rendered row, and a JavaScript write past the end, which would leave holes in the array, is not modelled.
- Reachability of the KYC details panel: in src/pages/KycPage.tsx `setSelectedSubmission` is only ever called with `null` (lines 138, 161, 178, 334), so `handleApprove`, `handleReject`, the details panel and its Approve and Reject buttons cannot be reached; KycPage.KycPage has no method that selects a submission, and its Approve and Reject state what the handlers would do.
- Concurrency: overlapping requests and "last write wins" between tabs are not modelled.

## Findings

| source | as written | input that shows it | evidently intended | confidence | as-written member | corrected member |
|---|---|---|---|---|---|---|
| src/pages/BankPage.tsx:66 | the page reads `transactionsData?.data`, but the hook (src/hooks/useBank.ts:43) has already unwrapped `.data`, so the page reads a field of an array | a response `{ data: [t] }`: the hook yields `[t]`, the page lists `[]` | list the hook's result: `transactionsData \|\| []` | not executed | BankPage.ListAlwaysEmptyAsWritten, BankPage.ListEmptyWitness | BankPage.PageTransactionsCorrected, BankPage.CorrectedListsEnvelopeData |
| src/pages/TransactionDetailPage.tsx:13 | the detail page also searches `transactionsData?.data`, so every lookup fails | a response `{ data: [t] }` and the route id `t.id`: the page shows "not found" | search the hook's result itself | not executed | TransactionDetailPage.AlwaysNotFoundAsWritten, TransactionDetailPage.NotFoundWitness | TransactionDetailPage.CorrectedFindsListed |
| src/pages/BankPage.tsx:468-471 | the key prompt stores credentials with `setApiKey`/`setBaseUrl` from src/lib/auth.ts ("admin_api_key_bank"), while signed-in state comes from the context record "admin_api_keys" (src/hooks/useServiceAuth.ts:4-9), which the prompt never writes; logout (src/pages/KycPage.tsx:141-143) likewise removes only the auth.ts entries | a fresh browser, bank key "key" entered in the prompt: the page stays signed out and shows the prompt again | write the key through the context as well, so signing in and out takes effect | not executed | CredentialFlow.PromptNeverSignsIn, CredentialFlow.PromptLoopsOnFreshBrowser, CredentialFlow.LogoutNeverSignsOut | CredentialFlow.CorrectedPromptSignsIn, CredentialFlow.CorrectedLogoutSignsOut |
| src/components/ApiKeyPrompt.tsx:27 | the prompt calls `onAuthenticate(apiKey.trim())` with one argument, while the pages' `handleAuthenticate(apiKey, baseUrl)` (src/pages/EmailPage.tsx:17-21, src/pages/BankPage.tsx:468-470) passes its `baseUrl` to `setBaseUrl`, which stores `undefined` as the text "undefined". Requests are not affected: they use fixed clients (src/services/clients/bank.ts:3-11) and the provider's key; the stored URL is read only by `getBaseUrl`, which the email page shows as "Base URL" (src/pages/EmailPage.tsx:135) once it is signed in, and which the pages pass as the prompt's `defaultBaseUrl`, a prop the prompt ignores | a fresh browser, email key " key " entered: `getBaseUrl("email")` (src/lib/auth.ts:15-17) returns "undefined" instead of "http://localhost:3000" | leave the URL entry alone when the prompt gives none, so the stored or default URL is used | not executed | CredentialFlow.PromptStoresUndefinedUrl, CredentialFlow.UndefinedUrlWitness | CredentialFlow.CorrectedPromptKeepsBaseUrl |
