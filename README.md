# social-dashboard in Dafny

A model of the logic behind the social-media dashboard: the in-memory account store (a Redux slice with
the reducers `addAccount`, `updateAccount`, `deleteAccount`, `incrementPostViews` and the three stages
of `loadAccounts`), the mock data source it loads from, the dashboard's search filter and follower
total, the per-mount view counter of a post card, the add/edit account form's payload building and
post-list editing, and the small helpers in `utils.ts` (account ids, engagement colour, platform
style).

Files and modules:

- `types.dfy` (`Types`): `Post`, `Account`, an `Option` type and predicates over account lists.
- `text.dfy` (`Text`): the JavaScript string built-ins the code relies on: `trim`, `toLowerCase`
  and `includes`.
- `utils.dfy` (`Utils`): `getRandomUUID`, `getEngagementColor` and `getPlatformStyle`.
- `social_api.dfy` (`SocialApi`): the seed data and `fetchAccounts`.
- `social_slice.dfy` (`SocialSlice`): the store, as a class whose methods update its fields. Each
  reducer's effect on the list is also a function on values (`Updated`, `Deleted`, `Incremented`),
  and lemmas about those functions state what the reducers promise.
- `post_item.dfy` (`PostItem`): the `hasCountedRef` latch of a mounted post and the dispatches it sends.
- `dashboard.dfy` (`Dashboard`): `filteredAccounts` and `totalFollowersFiltered`.
- `account_modal.dfy` (`AccountModal`): `initialValues`, `onSubmit`, `handleAddPost` and
  `handleRemovePost`.

One behaviour is easy to misread. A failed load is meant to leave an error message on screen, and the
dashboard shows the error banner, with its Retry button, only when `error` is truthy
(src/pages/Dashboard/Dashboard.tsx:54). The rejected case, however, writes
`action.error.message ?? "Failed to load accounts"`, and `??` only replaces a missing message. A
rejection whose message is the empty string therefore records `""`, and no banner appears. In the model,
`Rejects(Some(""))` records `Some("")` and only `Rejects(None)` records the default text, as the
code does.

## Model

| member | source | states |
|---|---|---|
| Text.Trim | src/pages/Dashboard/Dashboard.tsx:25-26 | the result has no white space at either end and is a contiguous part of the input, everything before and after it being white space; it is empty exactly when the input is all white space |
| Text.TrimOfTrimmed | src/pages/Dashboard/Dashboard.tsx:25-26 | a string with no white space at either end is its own trim |
| Text.TrimIdempotent | src/components/AccountModal/AccountModal.tsx:77-78 | trimming twice is trimming once |
| Text.Contains | src/pages/Dashboard/Dashboard.tsx:27 | `includes`: a string found is no longer than the string searched, the empty string is always found, and a prefix is always found |
| Text.ToLower | src/pages/Dashboard/Dashboard.tsx:26-27 | the result has the input's length and is its character-by-character lower-case form |
| Text.ToLowerIdempotent | src/pages/Dashboard/Dashboard.tsx:26-27 | lower-casing twice is lower-casing once |
| Text.LowerCharKeepsSpace | src/pages/Dashboard/Dashboard.tsx:26 | lower-casing neither creates nor removes white space |
| Text.ToLowerSlice | src/pages/Dashboard/Dashboard.tsx:26 | lower-casing a slice gives the same slice of the lower-cased string |
| Text.SkipForwardToLower | src/pages/Dashboard/Dashboard.tsx:26 | the leading white space of a string and of its lower-cased form end at the same index |
| Text.SkipBackwardToLower | src/pages/Dashboard/Dashboard.tsx:26 | the trailing white space of a string and of its lower-cased form start at the same index |
| Text.TrimToLowerCommute | src/pages/Dashboard/Dashboard.tsx:26 | trimming and lower-casing commute |
| Utils.DigitChar | src/utils.ts:5 | appending a number 0-9 to a string appends the one decimal digit character of that value |
| Utils.DrawDigit | src/utils.ts:5 | `Math.floor(x * 10)` for a draw in [0, 1) is a digit 0-9 |
| Utils.RandomId | src/utils.ts:2-8 | the id has 16 characters, each a decimal digit, the i-th being the digit drawn by the i-th call to `Math.random` |
| Utils.EngagementColor | src/utils.ts:44-48 | "success" exactly from 50 up, "warning" exactly from 15 up to below 50, "error" exactly below 15 |
| Utils.EngagementColorMonotone | src/utils.ts:44-48 | a higher engagement never gets a lower colour |
| Utils.PlatformStyle | src/utils.ts:28-42 | the four known platforms, matched on the lower-cased name, get their fixed colour and icon; every other name gets the globe icon and the drawn random colour, and only those names get the globe icon |
| Utils.PlatformStyleIgnoresCase | src/utils.ts:29 | names that differ only in letter case get the same style |
| Utils.PlatformStyleExamples | src/utils.ts:28-42 | "TWITTER" and "TikTok" are recognised; "LinkedIn" gets the default style |
| SocialApi.Seed | src/api/socialApi.ts:3-26 | the seed holds Twitter (id "1", 12000 followers, engagement 4.5, posts with 500, 1000 and 69 views) and Instagram (id "2", 45000 followers, engagement 22, posts with 233, 231 and 111 views), every post dated "2024-01-01" with the shared description |
| SocialApi.FetchAccounts | src/api/socialApi.ts:3-33 | the fetched data is two accounts, id "1" Twitter then id "2" Instagram, three posts each, with distinct ids and no negative follower or view count |
| SocialSlice.FirstIndexOf | src/store/socialSlice.ts:30 | the index of the first account with the id, or -1 exactly when none has it |
| SocialSlice.Updated | src/store/socialSlice.ts:29-32 | updating keeps the length, and an id no account has leaves the list unchanged |
| SocialSlice.UpdateReplacesFirstMatch | src/store/socialSlice.ts:30-31 | only the first account with the id is replaced; every other entry is unchanged |
| SocialSlice.UpdateThenFind | src/store/socialSlice.ts:30-31 | after an update the id is found at the same index as before, holding the new record |
| SocialSlice.UpdateIdempotent | src/store/socialSlice.ts:29-32 | applying the same update twice equals applying it once |
| SocialSlice.Deleted | src/store/socialSlice.ts:34 | no account with the id remains, nothing is added, and every account with another id stays |
| SocialSlice.DeleteAbsent | src/store/socialSlice.ts:34 | deleting an absent id leaves the list unchanged |
| SocialSlice.DeleteIdempotent | src/store/socialSlice.ts:33-35 | deleting a second time is a no-op |
| SocialSlice.DeleteConcat | src/store/socialSlice.ts:34 | deletion distributes over concatenation, so the survivors keep their order |
| SocialSlice.DeleteKeepsOthers | src/store/socialSlice.ts:34 | every account with another id keeps its number of occurrences |
| SocialSlice.WithViewAdded | src/store/socialSlice.ts:44 | the account's post gains exactly one view; its other fields, the account's other posts and the account's other fields are unchanged |
| SocialSlice.Incremented | src/store/socialSlice.ts:41-45 | the length is kept, and an unknown account or an out-of-range index leaves the list unchanged |
| SocialSlice.IncrementOnePost | src/store/socialSlice.ts:41-45 | on a valid target that post gains exactly one view; its other fields, the account's other fields and posts, and all other accounts are unchanged |
| SocialSlice.IncrementAddsOneView | src/store/socialSlice.ts:41-45 | the total views over the store grow by one on a valid target and are unchanged otherwise |
| SocialSlice.IncrementKeepsViewsNonNegative | src/store/socialSlice.ts:43-44 | incrementing keeps every view count non-negative |
| SocialSlice.IncrementScenario | src/store/socialSlice.ts:37-46 | two counted views raise a post from 0 to 2; an index past the end changes nothing |
| SocialSlice.Store.constructor | src/store/socialSlice.ts:11-15 | the initial state is an empty list, loading, and no error |
| SocialSlice.Store.AddAccount | src/store/socialSlice.ts:26-28 | the account is appended with no duplicate-id check; loading and error are unchanged |
| SocialSlice.Store.UpdateAccount | src/store/socialSlice.ts:29-32 | the new list is `Updated` of the old one; loading and error are unchanged |
| SocialSlice.Store.DeleteAccount | src/store/socialSlice.ts:33-35 | the new list is `Deleted` of the old one; loading and error are unchanged |
| SocialSlice.Store.IncrementPostViews | src/store/socialSlice.ts:37-46 | the nested in-place increment leaves the list equal to `Incremented` of the old one; loading and error are unchanged |
| SocialSlice.Store.LoadPending | src/store/socialSlice.ts:50-53 | loading is set, the error cleared, and the list kept |
| SocialSlice.Store.LoadFulfilled | src/store/socialSlice.ts:54-58 | loading and the error are cleared, and the payload replaces the list |
| SocialSlice.Store.LoadRejected | src/store/socialSlice.ts:59-62 | loading is cleared, the error is the message or "Failed to load accounts" when there is none, and the list is kept |
| SocialSlice.Store.LoadAccounts | src/store/socialSlice.ts:17-20 | after a load, loading is cleared and either the seed is shown with no error, or the old list is kept with the error message |
| SocialSlice.RetryAfterNetworkError | src/pages/Dashboard/Dashboard.test.tsx:78-90 | a load rejected with "Network error" records that error; a retry that succeeds clears it and shows the data |
| SocialSlice.RejectWithoutMessage | src/store/socialSlice.ts:61 | a rejection without a message records "Failed to load accounts" |
| SocialSlice.ReloadResets | src/api/socialApi.ts:28-33 | a view counted in the store does not reach the data source: a reload brings back the seed, although the counted view had changed the list |
| PostItem.ViewLatch.constructor | src/components/PostItem/PostItem.tsx:19 | a new mount starts with the flag cleared, for its own account and post |
| PostItem.ViewLatch.OnIntersection | src/components/PostItem/PostItem.tsx:26-31 | the flag ends up set exactly when it was set or the entry intersects; a request for this post is sent only on an intersecting entry while the flag was clear |
| PostItem.CountViewsPerMount | src/components/PostItem/PostItem.tsx:15-37 | one mount sends at most one request; it sends one exactly when some entry intersected, and that request names the mounted post |
| PostItem.MountAndObserve | src/components/PostItem/PostItem.tsx:21-37 | in the store, the post gains one view if it was ever visible during the mount; otherwise the list is unchanged |
| Dashboard.Matching | src/pages/Dashboard/Dashboard.tsx:27 | an account is kept exactly when it is in the list and its lower-cased name contains the query |
| Dashboard.FilteredAccounts | src/pages/Dashboard/Dashboard.tsx:24-28 | the result is no longer than the list; a blank query returns the list itself; otherwise an account is shown exactly when its lower-cased name contains the trimmed, lower-cased query |
| Dashboard.MatchingCounts | src/pages/Dashboard/Dashboard.tsx:27 | every copy of a matching account is kept and no copy of any other, so repeated accounts count as often as they occur |
| Dashboard.TotalFollowers | src/pages/Dashboard/Dashboard.tsx:30 | the sum over no accounts is 0, and with no negative follower count the sum is not negative |
| Dashboard.SubsequenceReflexive | src/pages/Dashboard/Dashboard.tsx:25 | a list is a subsequence of itself |
| Dashboard.MatchingIsSubsequence | src/pages/Dashboard/Dashboard.tsx:27 | the matching accounts keep their order |
| Dashboard.BlankQueryShowsAll | src/pages/Dashboard/Dashboard.tsx:25 | an empty or all-white-space query shows the list unchanged |
| Dashboard.FilteredIsSubsequence | src/pages/Dashboard/Dashboard.tsx:24-28 | the filtered list is an order-preserving subsequence of the accounts |
| Dashboard.FilterKeepsExactlyMatches | src/pages/Dashboard/Dashboard.tsx:26-27 | with a non-blank query, an account is shown exactly when its lower-cased name contains the trimmed, lower-cased query |
| Dashboard.FilterIgnoresQueryCase | src/pages/Dashboard/Dashboard.tsx:26 | queries that differ only in letter case show the same accounts |
| Dashboard.NoMatchIsEmpty | src/pages/Dashboard/Dashboard.tsx:27 | if no lower-cased name contains the query, nothing matches |
| Dashboard.NoMatchGivesEmpty | src/pages/Dashboard/Dashboard.test.tsx:101-107 | a non-blank query that matches no account shows an empty list |
| Dashboard.MatchingTotalBounded | src/pages/Dashboard/Dashboard.tsx:30 | with no negative follower count, the matching accounts' followers sum to between 0 and the overall total |
| Dashboard.FilteredTotalBounded | src/pages/Dashboard/Dashboard.tsx:30 | `totalFollowersFiltered` lies between 0 and the total over all accounts |
| Dashboard.SampleTotal | src/pages/Dashboard/Dashboard.test.tsx:58-64 | with no query, the two sample accounts total 57000 followers |
| Dashboard.SampleSearchTwitter | src/pages/Dashboard/Dashboard.test.tsx:45-56 | the query "Twitter" keeps Twitter and drops Instagram |
| Dashboard.TwitterNotInInstagram | src/pages/Dashboard/Dashboard.test.tsx:52-55 | "instagram" does not contain "twitter" |
| AccountModal.InitialValues | src/components/AccountModal/AccountModal.tsx:64-71 | edit mode starts from the account's name, followers, engagement and posts; add mode starts empty and zero |
| AccountModal.EmptyPost | src/components/AccountModal/AccountModal.tsx:47-52 | the empty post is blank, dated today and has 0 views |
| AccountModal.IsBlankPost | src/components/AccountModal/AccountModal.tsx:75 | a post is dropped exactly when its title and its description are both entirely white space |
| AccountModal.NormalizePost | src/components/AccountModal/AccountModal.tsx:76-81 | the saved post's title and description are the originals trimmed; it is blank exactly when the original was; its date is the original when non-empty and today otherwise; its view count is the original when non-negative and 0 otherwise |
| AccountModal.NormalizeSavedPost | src/components/AccountModal/AccountModal.tsx:76-81 | a post already in saved form is left unchanged |
| AccountModal.NormalizePosts | src/components/AccountModal/AccountModal.tsx:74-81 | no more posts come out than go in, none is blank, all are trimmed with non-negative views, and all are dated when today's date is |
| AccountModal.NonBlankPostIsKept | src/components/AccountModal/AccountModal.tsx:75 | every post that is not blank is saved, in normalised form |
| AccountModal.SavedPostComesFromForm | src/components/AccountModal/AccountModal.tsx:74-81 | every saved post is the normalised form of a non-blank post of the form |
| AccountModal.NormalizePostsConcat | src/components/AccountModal/AccountModal.tsx:75-76 | normalising distributes over concatenation, so the saved posts keep their order |
| AccountModal.NormalizeSavedPosts | src/components/AccountModal/AccountModal.tsx:74-81 | a list of posts already in saved form is saved unchanged |
| AccountModal.NormalizePostsIdempotent | src/components/AccountModal/AccountModal.tsx:74-81 | saving the saved posts again changes nothing |
| AccountModal.Submit | src/components/AccountModal/AccountModal.tsx:73-93 | edit mode dispatches an update that keeps the edited id; add mode dispatches an add with the fresh id; the payload carries the form's name, followers and engagement and the normalised posts |
| AccountModal.EditUnchangedKeepsAccount | src/components/AccountModal/AccountModal.tsx:64-93 | opening an account whose posts are in saved form and submitting at once updates it to itself |
| AccountModal.AddUnchangedIsEmptyAccount | src/components/AccountModal/AccountModal.tsx:64-93 | `onSubmit` applied to the untouched add-mode values builds an add of an empty account under the fresh id |
| AccountModal.AddPost | src/components/AccountModal/AccountModal.tsx:138-140 | exactly one blank post, dated today with 0 views, is appended, and the others are unchanged |
| AccountModal.AddedBlankPostIsDropped | src/components/AccountModal/AccountModal.tsx:138-140 | `onSubmit` applied to a post list with a blank post appended saves the same posts as without it |
| AccountModal.RemovePost | src/components/AccountModal/AccountModal.tsx:142-147 | an index in range removes exactly that post, and the others keep their order; any other index leaves the list unchanged |
| AccountModal.RemoveAddedPost | src/components/AccountModal/AccountModal.tsx:138-147 | removing the post just added gives the list back |
| AccountModal.Dispatch | src/components/AccountModal/AccountModal.tsx:89-93 | an add appends the payload and an update replaces the first account with its id; loading and error are unchanged |
| AccountModal.EditRenamesStoredAccount | src/components/AccountModal/AccountModal.test.tsx:94-111 | after an edit submit, the first account with the edited id is at the same index and carries the typed name |
| AccountModal.EditFlow | src/components/AccountModal/AccountModal.test.tsx:94-111 | adding "edit-1", renaming it to "X" in the form and submitting leaves an "edit-1" account in the store, and the first one is named "X" |
| AccountModal.AddFlow | src/components/AccountModal/AccountModal.test.tsx:79-92 | submitting "New Account" with 5000 followers and engagement 8 appends that account under the fresh id |

## Left out

- The 800 ms timer in `fetchAccounts` and the asynchrony of `createAsyncThunk` are left out. A load is modelled as pending, then fulfilled or rejected, run to completion (`FetchOutcome`). Two loads racing each other are not modelled.
- The `JSON.parse(JSON.stringify(...))` deep copy is not modelled as a step. Datatype values are immutable, so no caller can alter the seed through the copy.
- `Math.random` is not modelled. Its draws are the parameter of `RandomId`, and the colour `getRandomColor` would produce is a parameter of `PlatformStyle`. `getRandomColor`'s `hsl(...)` formatting is not modelled.
- The current date (`new Date().toISOString().slice(0, 10)`) is the parameter `today`. The id `getRandomUUID` would draw on submit is the parameter `freshId`.
- `formatNumber` and `formatDate` are left out: they are locale formatting for display.
- The `IntersectionObserver` geometry (threshold, root margin) is left out. Each notification is reduced to its `isIntersecting` flag, and disconnecting on unmount ends the event sequence.
- The Yup/Formik validation schema and the error display are left out. They are library behaviour, and the model's submit takes the form values as they are. In the program, validation refuses an empty name, fewer than 1 follower, an engagement outside 0.1-100, and a post with an empty title or description, and `onSubmit` then does not run. The untouched add form and a freshly added, untouched post are therefore refused before `onSubmit`. Only posts whose title and description are non-empty but entirely white space reach the branch of `onSubmit` that drops blank posts. `AddUnchangedIsEmptyAccount` and `AddedBlankPostIsDropped` state what `onSubmit` itself does with such values.
- All JSX, MUI layout and the remaining UI components are left out.
- Text.ToLower: lower-cases only the ASCII letters A-Z, not the full Unicode case mapping of `toLowerCase`.
- Text strings are sequences of code points, not UTF-16 code units. Lengths and indices can therefore differ from JavaScript's for characters outside the Basic Multilingual Plane. No modelled operation depends on such lengths.
- Numbers are mathematical integers and reals. JavaScript's `NaN`, `Infinity`, fractional follower counts and fractional post indices are not modelled.
- AccountModal.NormalizePost: `Math.max(0, Number(p.views) || 0)` is modelled on an integer view count as `max(0, views)`. A non-numeric or `NaN` count, which the source also maps to 0, cannot arise in the model.
- SocialSlice.Incremented: `postIndex` is an integer. A fractional index, which finds no post in the source and so changes nothing, is not modelled.
