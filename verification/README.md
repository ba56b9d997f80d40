# Portfolio viewer: a Dafny model of its logic

The application is a React Native portfolio viewer. It fetches the `apps`
collection from a hosted backend and shows the records as cards, grouped
into "Successful Apps", "In Progress" and "Failed Experiments". Pull to
refresh fetches them again. This project models the four parts of that
code which are logic rather than layout:

- `types.dfy` (module `Types`): the `App` record and its closed
  `AppStatus` and `AppType` unions. The fields `id`, `name`,
  `description` and `created_at` are required strings. The fields `url`,
  `app_store_url` and `image_url` are `Option` values, and absence is a
  valid value.
- `use_apps.dfy` (module `UseApps`): the `useApps` hook. This is the class
  `AppsState`, whose three fields `apps`, `loading` and `error` are updated
  by `Begin` (which marks the hook as loading on entry) and `Complete(outcome)` (the
  `try`/`catch`/`finally` once the query has answered). `FetchApps` runs
  both, and `Refetch` is `FetchApps`. The pure functions `NextApps` and
  `NextError` specify one completed fetch. `AppsAfter` and `ErrorAfter`
  specify a run of fetches. The lemmas relate these functions to
  definitions that read the run from its end.
- `home_screen.dfy` (module `HomeScreen`): the home screen. It splits the
  list into three status buckets. It shows only a spinner while loading.
  Otherwise it shows one titled section per non-empty bucket, in a fixed
  order.
- `app_card.dfy` (module `AppCard`): the card helpers. These are
  `formatStatus` (split on `-`, capitalise, join with a space), the status
  colour, the type label, and the address a press opens.
- `wrappers.dfy` (module `Wrappers`): the `Option` type.

Three behaviours of the code are easy to overlook, and the model keeps them:

- A successful fetch does not clear an earlier error. The hook never calls
  `setError(null)`. So `error` stays non-null after the first failure until
  another failure overwrites it (`UseApps.ErrorNeverCleared`).
- The list is replaced only when a reply has no error and non-null data. A
  reply with null data leaves the previous list in place.
- The URL test checks the prefix `http`, not a scheme. So a bare host name
  that itself begins with `http` is opened without a scheme.

## Model

| member | source | states |
|---|---|---|
| `Types.ParseStatus` | types/index.ts:1 | a string is read as a status exactly when it is one of the three literals `successful`, `in-progress`, `failed` |
| `Types.StatusName` | types/index.ts:1 | every status is one of the union's literals and reads back as itself |
| `Types.ParseStatusInverse` | types/index.ts:1 | a string read as a status is exactly that status's literal |
| `Types.StatusNamesDistinct` | types/index.ts:1 | the three status literals are pairwise different |
| `Types.ParseType` | types/index.ts:2 | a string is read as an app type exactly when it is `web` or `ios` |
| `Types.TypeName` | types/index.ts:2 | every app type is one of the literals `web`, `ios` and reads back as itself |
| `Types.ParseTypeInverse` | types/index.ts:2 | a string read as an app type is exactly that type's literal |
| `AppCard.Split` | components/AppCard.tsx:97 | `split('-')` yields one more piece than the input has separators, and no piece contains a separator |
| `AppCard.Join` | components/AppCard.tsx:97 | the first piece starts the joined text, and when no piece holds the separator the text holds one separator fewer than there are pieces |
| `AppCard.JoinSplit` | components/AppCard.tsx:97 | joining the pieces of a split with the same separator gives back the input |
| `AppCard.Upper` | components/AppCard.tsx:97 | upper-casing maps `a`-`z` to `A`-`Z` and leaves every other character alone |
| `AppCard.Capitalize` | components/AppCard.tsx:97 | a capitalised word keeps its length; only its first character is upper-cased |
| `AppCard.CapitalizeWords` | components/AppCard.tsx:97 | the words are capitalised one by one: same number of words, each the capitalised word at the same position |
| `AppCard.FormatStatus` | components/AppCard.tsx:96-98 | the status text has the input's length; at each position a `-` becomes a space, a word's first letter is upper-cased, and any other character is kept; there is no `-` in the output; its spaces are the input's `-` plus the input's spaces |
| `AppCard.FormatFromSplit` | components/AppCard.tsx:97 | splitting, capitalising every word and joining equals a single left-to-right scan that upper-cases each word's first character |
| `AppCard.FormatSuccessful` | components/AppCard.tsx:96-98 | `successful` is shown as `Successful` |
| `AppCard.FormatInProgress` | components/AppCard.tsx:96-98 | `in-progress` is shown as `In Progress` |
| `AppCard.FormatFailed` | components/AppCard.tsx:96-98 | `failed` is shown as `Failed` |
| `AppCard.StatusColor` | components/AppCard.tsx:83-94 | `successful` is green, `in-progress` yellow and `failed` red; the colour is gray exactly for strings outside the status union |
| `AppCard.StatusColorOfStatus` | components/AppCard.tsx:83-93 | for a well-typed status the gray fallback is never reached, and different statuses get different colours |
| `AppCard.TypeLabel` | components/AppCard.tsx:63 | the label is `iOS App` exactly for `ios` and `Web App` for every other type |
| `AppCard.NormalizeUrl` | components/AppCard.tsx:32 | the result always starts with `http`; an address already starting with `http` is unchanged; any other gets `https://` in front |
| `AppCard.NormalizeUrlIdempotent` | components/AppCard.tsx:32 | normalising twice equals normalising once, and the original address is the tail of the result |
| `AppCard.PressTarget` | components/AppCard.tsx:30-35 | a press opens nothing exactly when `url` is absent or empty; otherwise it opens the normalised `url`, which starts with `http` |
| `AppCard.ShowsLinkIcon` | components/AppCard.tsx:65 | the external-link icon is drawn exactly on the cards whose press opens an address |
| `AppCard.CardOf` | components/AppCard.tsx:62-74 | a card shows the app's name, type label, description, its status's colour (never gray) and formatted status text (`Successful`, `In Progress` or `Failed`); it opens the press target and shows the link icon exactly when that exists; its key is the app's id, which the section's list sets at app/index.tsx:63 |
| `HomeScreen.Bucket` | app/index.tsx:13-15 | a status filter is no longer than the list, and every element in it has that status |
| `HomeScreen.Partition` | app/index.tsx:13-15 | each of the three buckets holds only apps of its own status, and every app of the list is in one of them |
| `HomeScreen.BucketExact` | app/index.tsx:13-15 | a bucket is a subsequence of the list, in the original relative order; it holds every copy of each app with its status and none of any other app |
| `HomeScreen.BucketMembers` | app/index.tsx:13-15 | an app is in a bucket if and only if it is in the list and has that bucket's status |
| `HomeScreen.PartitionComplete` | app/index.tsx:13-15 | the three buckets together are a rearrangement of the list, and their lengths add up to its length |
| `HomeScreen.ExactlyOneBucket` | app/index.tsx:13-15 | every app of the list is in the bucket of its own status and in neither of the other two |
| `HomeScreen.PartitionExample` | app/index.tsx:13-15 | a successful app followed by a failed one give the buckets `[a]`, `[]`, `[b]` |
| `HomeScreen.Cards` | app/index.tsx:62-64 | the card list has one card per app, in order, with the position as the card's index |
| `HomeScreen.Section` | app/index.tsx:55-68 | a section renders nothing exactly when its bucket is empty; otherwise it shows its title and one card per app, in order, numbered from 0 |
| `HomeScreen.Render` | app/index.tsx:17-23 | the screen is only the spinner exactly when `loading` is true |
| `HomeScreen.RenderLoaded` | app/index.tsx:47-49 | once loaded, the page lists the sections of the non-empty buckets in the fixed order successful, in progress, failed |
| `HomeScreen.RenderCardCount` | app/index.tsx:47-49 | once loaded, the page shows exactly one card per app |
| `HomeScreen.SectionCardsHaveStatus` | app/index.tsx:47-49 | a non-empty bucket's section is titled with that bucket's heading, and its card at each position shows the app of the list at that position of the bucket, which has the bucket's status |
| `UseApps.Caught` | hooks/useApps.ts:22-24 | nothing reaches `catch` exactly when the query answered with a null `error` |
| `UseApps.Message` | hooks/useApps.ts:30 | an `Error` contributes its message; any other thrown value gives `An error occurred` |
| `UseApps.Delivered` | hooks/useApps.ts:26-27 | `setApps` is called exactly when the reply has no error and non-null data, and it receives that data |
| `UseApps.NextApps` | hooks/useApps.ts:22-28 | a reply with non-null data and no error replaces the list wholesale, in the order received; a reply with null data, or any failure, leaves the list unchanged |
| `UseApps.NextError` | hooks/useApps.ts:29-30 | a failure records the error's message or the fallback; a success leaves the error as it was; once non-null it stays non-null |
| `UseApps.AppsState.constructor` | hooks/useApps.ts:6-8 | the hook starts with an empty list, `loading` true and a null error |
| `UseApps.AppsState.Begin` | hooks/useApps.ts:16 | entering a fetch sets `loading` and changes nothing else |
| `UseApps.AppsState.Complete` | hooks/useApps.ts:17-33 | after the query answers, `loading` is false whatever the outcome, and `apps` and `error` follow `NextApps` and `NextError` |
| `UseApps.AppsState.FetchApps` | hooks/useApps.ts:14-34 | a whole fetch ends with `loading` false, with the list and the error updated as one completed fetch specifies |
| `UseApps.AppsState.Refetch` | hooks/useApps.ts:36 | `refetch` performs exactly the `fetchApps` transition |
| `UseApps.AppsAfter` | hooks/useApps.ts:26-27 | after a run of fetches the list is the starting one or the data one of the fetches delivered |
| `UseApps.ErrorAfter` | hooks/useApps.ts:29-30 | after a run of fetches the error is the starting value or the message of one of the failures, and it is not null if it was not null before |
| `UseApps.AppsAfterIsLastDelivered` | hooks/useApps.ts:26-27 | after any run of fetches the list is the data of the last fetch that delivered data, or the starting list if none did |
| `UseApps.ErrorAfterIsLastFailure` | hooks/useApps.ts:29-30 | after any run of fetches the error is the message of the last failure, or the starting value if none failed |
| `UseApps.ErrorNeverCleared` | hooks/useApps.ts:14-34 | after a run of fetches the error is null if and only if it was null before and none of the fetches failed |
| `UseApps.RefetchIdempotent` | hooks/useApps.ts:27 | two fetches with the same reply leave the same list and error as one |
| `UseApps.FailureKeepsData` | hooks/useApps.ts:29-30 | a failed refetch keeps the list that was shown and leaves a non-null error |

## Left out

- The backend query (hooks/useApps.ts:17-20) is a network call to a client module. `lib/supabase` is not part of this model. Its answer is the `Outcome` parameter of `Complete`. The descending `created_at` order is the backend's job, and the code does not check it.
- The cast `data as App[]` is unchecked at run time. The model takes the backend's rows to be well-formed `App` records.
- React's `useState` and `useEffect` (hooks/useApps.ts:10-12) are not modelled. The mount-time fetch is the first `FetchApps` after the constructor.
- Overlapping refetches are not modelled. In the code, a refetch can start before the previous one answers, and the last answer wins. The model always runs `Begin` and then `Complete` for one fetch before the next fetch begins.
- `Linking.openURL` (components/AppCard.tsx:33) is a call into the platform. The model gives only the address it would receive (`PressTarget`).
- Animation is not modelled: the press scale springs and the entry delay `index * 100` (components/AppCard.tsx:16-28,43).
- Styling and visual components are not modelled: gradients, blur, icons, safe-area padding (app/index.tsx:36), `StyleSheet` blocks, and the two-line truncation of the description.
- The `RefreshControl` wiring (app/index.tsx:39) is not modelled. Pulling to refresh calls `Refetch`.
- AppCard.Upper: upper-cases ASCII letters only. JavaScript's `toUpperCase` also maps non-ASCII letters, and some of them map to several characters. The status strings are ASCII, so the status text is unaffected.
