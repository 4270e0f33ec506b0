# Family-trees web client: a Dafny model of its client-side logic

This project models the client-side logic of the family-trees web
application. The client is written in TypeScript and React. The model covers:

- the editor-lock guard that every tree-editing mutation runs behind;
- the query-key scheme, and which cached queries each mutation invalidates on success;
- the date-only helpers, which parse and format `YYYY-MM-DD` (the `full-date`
  form of section 5.6 of RFC 3339) and shift a date by whole months;
- the member search filter;
- the add/edit member dialog, the marriage-details dialog and the two-step
  "create a tree" wizard;
- the root layout's reaction to sign-in, sign-out and a change of user;
- the record types exchanged with the service.

Remote calls are not modelled. How each one settles (fulfilled with a value,
or rejected with an `Error` or some other thrown value) is a parameter. Each
operation reports the calls it made, the request it sent, and the new state of
the query cache and of the dialog.

Modules, one per source file, plus two helpers:

| module | file | models |
|---|---|---|
| `Types` | types.dfy | src/types/index.ts; `T \| null`; how a promise settles; what can be thrown |
| `Text` | text.dfy | `trim`, ASCII `toLowerCase`, `includes`, `split(c)[0]`, decimal digits |
| `DateOnly` | date_only.dfy | src/utils/dateOnly.ts |
| `QueryKeys` | query_keys.dfy | `queryKeys`, the query hooks, and the react-query cache as a set of up-to-date keys |
| `EditorLockWrapper` | editor_lock_wrapper.dfy | src/hooks/useEditorLockWrapper.ts |
| `TreesApi` | trees_api.dfy | the mutation hooks of src/hooks/useTreesApi.ts and their `onSuccess` |
| `MemberSearch` | member_search.dfy | src/components/tree/MemberSearch.tsx |
| `MemberInput` | member_input.dfy | the request fields the three forms share |
| `MemberForm` | member_form.dfy | src/components/tree/MemberFormModal.tsx |
| `MarriageEdit` | marriage_edit.dfy | src/components/tree/MarriageEditModal.tsx |
| `CreateTree` | create_tree.dfy | src/components/dashboard/CreateTreeModal.tsx |
| `RootLayout` | root_layout.dfy | src/routes/__root.tsx |

Code that changes state in place is modelled as classes with `modifies`
clauses:
- the query cache is `QueryKeys.QueryClient`;
- the global partition key is `TreesApi.PartitionKeyHolder`;
- each dialog's React state is a class whose fields are that state;
- the root layout's refs are `RootLayout.AuthWatcher`.

Each such method is proved against a pure function of the old state. For
example:
- `EditorLockWrapper.RunGuarded` is proved against `Guard` and `CacheAfter`;
- `TreesApi.OnSuccess` is proved against `AfterSuccess`;
- `RootLayout.AuthWatcher.Effect` is proved against `Step`;
- `DateOnly.SubtractMonthsFromDateOnly`, which keeps the two normalising loops
  of the source, is proved against `ShiftDate` and `IsoDate`.

The properties are then lemmas about those functions.

## Model

| member | source | states |
|---|---|---|
| `Types.MessageOr` | src/components/tree/MemberFormModal.tsx:179 | the message of a thrown `Error`, or the fallback for any other thrown value |
| `Types.GrantedRole` | src/types/index.ts:104-107 | a grant through AddRoleInput confers editor or viewer, never owner |
| `Types.ApplyUpdate` | src/types/index.ts:34-42 | the member after the server applies an update, assuming it overwrites exactly the fields present (name, surname, description, pic, photos); id, gender, born and died are not in the input and stay |
| `Types.UpdatesKeepImmutableFields` | src/types/index.ts:34-42 | the update input carries no id change, gender, born or died, so under the assumed merge no sequence of updates changes them |
| `Text.TrimSpec` | src/components/tree/MemberSearch.tsx:14 | `trim` keeps a slice `s[i..j]`, removes only whitespace, and leaves neither end on whitespace |
| `Text.TrimEmptyIffBlank` | src/components/tree/MemberSearch.tsx:14 | a trimmed string is empty exactly when the string is all whitespace |
| `Text.TrimIdempotent` | src/components/tree/MemberFormModal.tsx:122-123 | trimming twice is trimming once |
| `Text.TrimOfTrimmed` | src/components/tree/MemberFormModal.tsx:122-123 | a string with no whitespace at either end is its own trim |
| `Text.Lower` | src/components/tree/MemberSearch.tsx:16 | lower-casing keeps the length and maps each character on its own |
| `Text.LowerIdempotent` | src/components/tree/MemberSearch.tsx:16 | lower-casing twice is lower-casing once |
| `Text.LowerConcat` | src/components/tree/MemberSearch.tsx:16 | lower-casing distributes over concatenation |
| `Text.IncludesIffOccurs` | src/components/tree/MemberSearch.tsx:16 | `includes` holds exactly when the text occurs at some position |
| `Text.BeforeFirst` | src/utils/dateOnly.ts:17 | `split(c)[0]` is a prefix without `c`, and is followed by `c` when shorter than the input |
| `Text.BeforeFirstOfJoin` | src/components/tree/MarriageEditModal.tsx:40 | splitting `a + c + b` at the first `c` gives back `a` when `a` has no `c` |
| `Text.NatToString` | src/utils/dateOnly.ts:32 | `String(n)` is decimal digits with no leading zero |
| `Text.NatToStringRoundTrip` | src/utils/dateOnly.ts:38 | reading back the decimal form of `n` gives `n` |
| `Text.Pad2` | src/utils/dateOnly.ts:63-64 | `padStart(2, '0')` gives two digits whose value is the number |
| `DateOnly.ParseDatePart` | src/utils/dateOnly.ts:18-24 | a parsed date has a non-negative year, month 1-12 and day 1-31 |
| `DateOnly.ParseDateOnly` | src/utils/dateOnly.ts:16-25 | the same bounds for the whole parse, after the split at 'T' and the trim |
| `DateOnly.ParseDatePartFirstTen` | src/utils/dateOnly.ts:8 | only the first ten characters matter: the pattern is anchored at the start only |
| `DateOnly.ParseOfPlainText` | src/utils/dateOnly.ts:17 | text without 'T' or surrounding whitespace is parsed as it is |
| `DateOnly.ParsedYearBound` | src/utils/dateOnly.ts:8-20 | a parsed year is at most 9999 |
| `DateOnly.ParseIgnoresTimePart` | src/utils/dateOnly.ts:17 | `date + 'T' + time` parses to the same result as `date` |
| `DateOnly.ParseIgnoresTrailing` | src/utils/dateOnly.ts:8 | characters after a well-formed date are ignored |
| `DateOnly.MonthNameFacts` | src/utils/dateOnly.ts:10-13 | each month name maps back to its month number and has no space |
| `DateOnly.FormatDateOnly` | src/utils/dateOnly.ts:28-33 | unparsable input is returned unchanged |
| `DateOnly.DisplayRoundTrip` | src/utils/dateOnly.ts:28-33 | the display form "Month day, year" can be read back to the parsed date |
| `DateOnly.FormatYearOnly` | src/utils/dateOnly.ts:36-39 | unparsable input is returned unchanged |
| `DateOnly.GetYearFromDateOnly` | src/utils/dateOnly.ts:42-45 | a year is returned exactly when the input parses |
| `DateOnly.YearFormsAgree` | src/utils/dateOnly.ts:36-45 | `formatYearOnly` shows in decimal the year `getYearFromDateOnly` returns |
| `DateOnly.DaysInMonth` | src/utils/dateOnly.ts:61 | the month length is 28-31 |
| `DateOnly.ShiftMonth` | src/utils/dateOnly.ts:51-60 | the result month is 1-12 and `year*12 + month` drops by exactly `months` |
| `DateOnly.ShiftMonthInverse` | src/utils/dateOnly.ts:51-60 | shifting back and then forward by the same count restores the month |
| `DateOnly.ShiftDate` | src/utils/dateOnly.ts:51-62 | the shifted date's day is at least 1, at most the original day, at most the target month's length, and equals one of the two |
| `DateOnly.SubtractMonthsFromDateOnly` | src/utils/dateOnly.ts:48-66 | unparsable input comes back unchanged; otherwise the result is the `YYYY-MM-DD` text of the shifted date |
| `DateOnly.IsoDatePlain` | src/utils/dateOnly.ts:65 | the built text has no 'T' and no whitespace at its ends |
| `DateOnly.IsoDateReparses` | src/utils/dateOnly.ts:8-65 | with a year of 1000-9999 the built text parses back to the same date |
| `DateOnly.LongYearDoesNotReparse` | src/utils/dateOnly.ts:8-65 | with a year of 10000 or more the fifth character is a digit, so the built text is unparsable |
| `DateOnly.ShortYearDoesNotReparse` | src/utils/dateOnly.ts:8-65 | with a year below 1000 the unpadded year makes the built text unparsable |
| `QueryKeys.KeyArray` | src/hooks/useTreesApi.ts:36-49 | every key is a non-empty array |
| `QueryKeys.KeyArrayInjective` | src/hooks/useTreesApi.ts:36-49 | distinct keys build distinct arrays |
| `QueryKeys.PrefixMatchIsExact` | src/hooks/useTreesApi.ts:36-49 | invalidating by one key's array matches that key and no other |
| `QueryKeys.DirectRelationsFilterExact` | src/hooks/useTreesApi.ts:162-164 | the directRelations predicate matches exactly the directRelations keys of that tree |
| `QueryKeys.Invalidate` | src/hooks/useTreesApi.ts:156-165 | invalidation only removes entries, and removes exactly those the filter matches |
| `QueryKeys.QueryClient.InvalidateQueries` | src/hooks/useTreesApi.ts:156-165 | the cache afterwards is `Invalidate` of the cache before |
| `QueryKeys.QueryClient.Clear` | src/hooks/useTreesApi.ts:67 | `clear` leaves nothing up to date |
| `QueryKeys.PerTreeQueriesNeedPartitionKey` | src/hooks/useTreesApi.ts:108-144 | a per-tree query is disabled without a partition key; an enabled one reads under the real key, never '' |
| `QueryKeys.RunQuery` | src/hooks/useTreesApi.ts:112-116 | a query fetches, and its key becomes up to date, only when enabled |
| `EditorLockWrapper.RunGuarded` | src/hooks/useEditorLockWrapper.ts:26-62 | the closure's result and calls are `Guard`'s, and the cache is changed only by the invalidations among those calls |
| `EditorLockWrapper.CacheAfterSnoc` | src/hooks/useEditorLockWrapper.ts:45-47 | the calls act on the cache one after another, in order |
| `EditorLockWrapper.NoPartitionKeyCallsNothing` | src/hooks/useEditorLockWrapper.ts:27-29 | without a partition key the run throws "Partition key required for editor lock" and makes no call |
| `EditorLockWrapper.HeldByOtherRejects` | src/hooks/useEditorLockWrapper.ts:36-40 | a lock held by another user stops the run after the status call with the "being edited by another user" error |
| `EditorLockWrapper.UnknownUserIsRejected` | src/hooks/useEditorLockWrapper.ts:23-36 | while the current user id is null, every held lock with an owner is rejected and the mutation is not run |
| `EditorLockWrapper.FreeLockIsAcquiredFirst` | src/hooks/useEditorLockWrapper.ts:43-57 | a free lock is acquired once, its status key is invalidated, then the mutation runs and its outcome is returned |
| `EditorLockWrapper.FailedAcquireStops` | src/hooks/useEditorLockWrapper.ts:48-52 | a failed acquire throws "Failed to acquire editor lock: " plus the cause's message or "Unknown error", and the mutation is not run |
| `EditorLockWrapper.HeldLockProceeds` | src/hooks/useEditorLockWrapper.ts:36-57 | a lock held by the current user, or locked with no lock record, runs the mutation without acquiring |
| `EditorLockWrapper.MutationRunsOnlyWhenAllowed` | src/hooks/useEditorLockWrapper.ts:26-62 | the mutation runs if and only if the guard allows it; it is then the last call and its outcome passes through unchanged; acquire is called exactly when unlocked; no call releases the lock |
| `EditorLockWrapper.GuardInvalidatesOnlyLockStatus` | src/hooks/useEditorLockWrapper.ts:43-47 | the guard leaves every cached entry up to date except its own tree's lock status after an acquire |
| `TreesApi.PartitionKeyHolder.SetPartitionKey` | src/hooks/useTreesApi.ts:89-100 | the global partition key is replaced |
| `TreesApi.OnSuccess` | src/hooks/useTreesApi.ts:63-429 | each hook's `onSuccess` changes the cache as `AfterSuccess` says and the partition key as `KeyAfter` says |
| `TreesApi.SuccessDropsExactly` | src/hooks/useTreesApi.ts:63-429 | each `onSuccess` makes stale exactly the keys in the per-mutation table, and nothing becomes up to date |
| `TreesApi.RelationsInvalidationIsAsymmetric` | src/hooks/useTreesApi.ts:179-270 | a spouse-relation update and a member delete keep every directRelations entry, while a member update drops those of its tree |
| `TreesApi.NoPartitionKeyDropsNoTreeQuery` | src/hooks/useTreesApi.ts:155-266 | a hook without a partition key drops no per-tree query on success |
| `TreesApi.Mutate` | src/hooks/useTreesApi.ts:146-429 | a hook call runs through the guard exactly for the wrapped hooks, then `onSuccess` when it succeeded |
| `TreesApi.SuccessfulEditsPassedTheGuard` | src/hooks/useTreesApi.ts:148-412 | the lock status is consulted exactly by the wrapped hooks, and a wrapped hook succeeds only if the guard let its mutation run |
| `TreesApi.MutationKeepsOtherTrees` | src/hooks/useTreesApi.ts:146-429 | no call of a hook bound to one tree makes another tree's cached query stale |
| `MemberSearch.Select` | src/components/tree/MemberSearch.tsx:15-17 | the filter returns exactly the matching members and never more than its input |
| `MemberSearch.SelectAppend` | src/components/tree/MemberSearch.tsx:15 | the filter keeps input order: filtering a concatenation filters each part |
| `MemberSearch.FilteredSpec` | src/components/tree/MemberSearch.tsx:14-18 | a blank query finds nothing; otherwise the results are exactly the matching members |
| `MemberSearch.QueryCaseDoesNotMatter` | src/components/tree/MemberSearch.tsx:16 | queries differing only in letter case find the same members |
| `MemberSearch.NameCaseDoesNotMatter` | src/components/tree/MemberSearch.tsx:16 | names differing only in letter case are found by the same queries |
| `MemberSearch.UntrimmedQueryExample` | src/components/tree/MemberSearch.tsx:14-16 | " ann" is not blank, yet does not find "ann lee", while "ann" does |
| `MemberSearch.SearchBox.Type` | src/components/tree/MemberSearch.tsx:50-53 | typing replaces the query and opens the list |
| `MemberSearch.SearchBox.Focus` | src/components/tree/MemberSearch.tsx:54 | focus opens the list |
| `MemberSearch.SearchBox.OutsideClick` | src/components/tree/MemberSearch.tsx:21-29 | a click outside closes the list |
| `MemberSearch.SearchBox.ClearQuery` | src/components/tree/MemberSearch.tsx:60-63 | clear empties the query and closes the list |
| `MemberSearch.SearchBox.SelectResult` | src/components/tree/MemberSearch.tsx:78-82 | choosing a result reports its id, empties the query and closes the list |
| `MemberSearch.DisplayIsConsistent` | src/components/tree/MemberSearch.tsx:73-109 | the list and "No members found" never show together; the note shows exactly when open, not blank and nothing matches |
| `MemberInput.OptionalAtMidnight` | src/components/tree/MemberFormModal.tsx:116 | an empty date is sent as absent |
| `MemberInput.AtMidnightRoundTrip` | src/components/tree/MarriageEditModal.tsx:40-90 | the stored `date + 'T00:00:00Z'` splits back to the date and parses to the same date |
| `MemberInput.DescriptionOrDefault` | src/components/tree/MemberFormModal.tsx:135 | the description sent is never empty: the trimmed text, or 'No description provided.' when blank |
| `MemberForm.Title` | src/components/tree/MemberFormModal.tsx:186-192 | the title is "Edit Member" exactly in edit mode, and never the fallback "Create Member" |
| `MemberForm.PlanFollowsMode` | src/components/tree/MemberFormModal.tsx:104-174 | a request is sent only in its own mode, anchored at the id the mode names; each refusal happens exactly in its own case |
| `MemberForm.EditChangesOnlyEditableFields` | src/components/tree/MemberFormModal.tsx:118-127 | an edit sends trimmed name and surname, the placeholder pic and photos, and a description only when one is typed, and never gender or dates; under the assumed merge id, gender and dates stay |
| `MemberForm.UneditedSaveResetsOnlyMedia` | src/components/tree/MemberFormModal.tsx:72-127 | saving a loaded member unedited sends its own name, surname and description back, so under the assumed merge only pic and photos change |
| `MemberForm.CreateSendsNewMember` | src/components/tree/MemberFormModal.tsx:128-173 | every create request carries the member built from the fields |
| `MemberForm.NewMemberKeepsDates` | src/components/tree/MemberFormModal.tsx:115-116 | the sent dates parse to the typed dates, an empty death date is absent, and the description is never empty |
| `MemberForm.SpouseRequestDates` | src/components/tree/MemberFormModal.tsx:156-172 | a spouse request has a marriage date that reads back as typed, and no divorce date exactly when none was typed |
| `MemberForm.EnabledSubmitSendsNames` | src/components/tree/MemberFormModal.tsx:407 | a submit the button allows sends a non-empty, trimmed name and surname |
| `MemberForm.MemberFormModal.LoadExisting` | src/components/tree/MemberFormModal.tsx:72-79 | the load effect fills the fields from the member, with dates cut at 'T' |
| `MemberForm.MemberFormModal.ResetForCreate` | src/components/tree/MemberFormModal.tsx:80-90 | in a create mode the fields are emptied |
| `MemberForm.MemberFormModal.HandleSubmit` | src/components/tree/MemberFormModal.tsx:104-183 | at most one request is sent, the one the plan names; each branch's error, loading and close outcome |
| `MarriageEdit.OppositeGendersResolveByGender` | src/components/tree/MarriageEditModal.tsx:46-47 | for a man and a woman the husband is the man and the wife the woman, in either order |
| `MarriageEdit.SameGenderResolution` | src/components/tree/MarriageEditModal.tsx:46-50 | two men give member1 as husband; two women give member2 as husband and member1 as wife |
| `MarriageEdit.LoadedPairIsSplit` | src/components/tree/MarriageEditModal.tsx:46-47 | of two loaded members, one is the husband and the other the wife |
| `MarriageEdit.UneditedSaveRoundTrip` | src/components/tree/MarriageEditModal.tsx:40-91 | opening on stored midnight dates and saving unedited sends those strings back |
| `MarriageEdit.MarriageEditModal.Initialize` | src/components/tree/MarriageEditModal.tsx:37-43 | opening on a marriage date fills both fields with the dates cut at 'T' |
| `MarriageEdit.MarriageEditModal.Escape` | src/components/tree/MarriageEditModal.tsx:57-74 | Escape closes exactly when not saving |
| `MarriageEdit.MarriageEditModal.HandleSubmit` | src/components/tree/MarriageEditModal.tsx:76-100 | a missing key or id sends nothing; otherwise the request with husband and wife ids and midnight dates, then close or the error |
| `CreateTree.TreeRecordSpec` | src/components/dashboard/CreateTreeModal.tsx:67-70 | the tree name is sent trimmed; the description is absent exactly when blank, otherwise trimmed and non-empty |
| `CreateTree.EnabledTreeSubmitSendsName` | src/components/dashboard/CreateTreeModal.tsx:198 | a tree submit the button allows sends a non-empty, trimmed name |
| `CreateTree.EnabledMemberSubmitSendsNames` | src/components/dashboard/CreateTreeModal.tsx:87-314 | a member submit the button allows sends non-empty trimmed names and a birth date that reads back as typed |
| `CreateTree.CreateTreeModal.constructor` | src/components/dashboard/CreateTreeModal.tsx:22-37 | the wizard starts at the tree step with empty fields, gender male and no tree id |
| `CreateTree.CreateTreeModal.Reset` | src/components/dashboard/CreateTreeModal.tsx:41-54 | every field returns to its initial value |
| `CreateTree.CreateTreeModal.EditTree` | src/components/dashboard/CreateTreeModal.tsx:168-182 | typing in step one replaces the tree name and description and nothing else |
| `CreateTree.CreateTreeModal.EditMember` | src/components/dashboard/CreateTreeModal.tsx:217-289 | typing in step two replaces the member fields and nothing else |
| `CreateTree.CreateTreeModal.SettleTree` | src/components/dashboard/CreateTreeModal.tsx:63-77 | a created tree's id is kept and step two shown; a failure sets the error and keeps step and id; loading ends false |
| `CreateTree.CreateTreeModal.TreeSubmit` | src/components/dashboard/CreateTreeModal.tsx:61-78 | success stores the tree id and moves to the member step; failure sets the error and stays; loading ends false |
| `CreateTree.CreateTreeModal.Back` | src/components/dashboard/CreateTreeModal.tsx:298 | Back returns to the tree step and keeps the stored id |
| `CreateTree.CreateTreeModal.Created` | src/components/dashboard/CreateTreeModal.tsx:99-100 | after a created first member the tree list is stale, the new partition key is set and the wizard is back at its initial state |
| `CreateTree.CreateTreeModal.SettleMember` | src/components/dashboard/CreateTreeModal.tsx:83-110 | success resets the wizard, sets the key and navigates to the tree; failure sets the error and leaves fields, cache and key alone; loading ends false |
| `CreateTree.CreateTreeModal.MemberSubmit` | src/components/dashboard/CreateTreeModal.tsx:80-111 | nothing happens without a tree id; the request carries that id; success sets the partition key, resets the wizard and navigates to the tree; failure keeps step and id |
| `RootLayout.UserIdentifier` | src/routes/__root.tsx:37-38 | a user identifier, when there is one, is non-empty |
| `RootLayout.UserIdentifierPrefersLoginId` | src/routes/__root.tsx:37-38 | the identifier is loginId, else username, else userId, else none |
| `RootLayout.FirstRunOnlyRecords` | src/routes/__root.tsx:41-46 | the first run only records status and identifier |
| `RootLayout.ClearGoesWithRedirect` | src/routes/__root.tsx:48-80 | a run clears the cache exactly when it redirects, and then leaves the refs unchanged; otherwise it records the current values |
| `RootLayout.TransitionsThatClear` | src/routes/__root.tsx:49-77 | the cache is cleared exactly on sign-out (redirect after 100 ms), on sign-in, and on a change between two known users |
| `RootLayout.UnchangedSessionIsQuiet` | src/routes/__root.tsx:48-80 | a run that sees the recorded status and user does nothing |
| `RootLayout.QuietRunIsStable` | src/routes/__root.tsx:79-80 | after a quiet run, running again with the same inputs is quiet |
| `RootLayout.ClearingRunRepeats` | src/routes/__root.tsx:49-77 | a clearing run records nothing, so a further run before the reload clears again |
| `RootLayout.ConfiguringToSignedInIsQuiet` | src/routes/__root.tsx:59-72 | signing in after the configuring status, with no earlier identifier, does not clear |
| `RootLayout.AuthWatcher.Effect` | src/routes/__root.tsx:35-81 | the refs, the cache and the redirect change as `Step` says |
| `RootLayout.SignOutSteps` | src/routes/__root.tsx:21-32 | the cache is cleared before `signOut`, and '/' is loaded exactly when `signOut` throws |
| `RootLayout.HandleSignOut` | src/routes/__root.tsx:21-32 | the handler takes those steps and leaves the cache empty |

## Left out

- Network clients: the tree, member, lock, media, role and authentication
  services are not part of this model. Each call's outcome is an input.
  `getPartitionKey`/`setPartitionKey` are modelled as a holder object; their
  local-storage persistence is not.
- Server-side lock semantics: what acquire does on the server is not modelled,
  nor lease expiry. Two clients racing between the status call and the
  acquire call are not modelled either; one client's calls are sequential.
- react-query internals: staleness times, refetching and retries are not
  modelled. The cache is the set of up-to-date keys. Invalidation removes
  keys by react-query's default prefix match, and `clear` empties the set.
- Types.ApplyUpdate: the server is assumed to overwrite exactly the fields
  present in an update and keep the others; the backend itself is not part of
  this model, so what the member becomes after an update rests on that
  assumption.
- Text.Lower: lower-cases A-Z only, not the full Unicode case mapping of
  `toLowerCase`.
- DateOnly.DaysInMonth: stated for the Gregorian calendar, with JavaScript's
  reading of years 0-99 as 1900-1999. Years outside the range of a JavaScript
  `Date`, where the day becomes NaN, are not modelled. `months` is an integer.
- `Number.parseInt` is modelled only on the digit groups the pattern has
  already matched.
- Rendering, styling and the open/close props of the dialogs are not
  modelled. Neither are the display names in MarriageEditModal.tsx:53-54, the
  Escape handler of MemberFormModal.tsx:57-69, or the
  `isLoading`/`!member1Id || !member2Id` early return of
  MarriageEditModal.tsx:102-104.
- The timer behind the 100 ms sign-out redirect is not modelled; it is reported
  as a delay. The `console.error` call is not modelled either.
- The theme hook, the other routes and pages, the GraphQL data client and the
  backend functions are not part of this model.
- CreateTree.CreateTreeModal.MemberSubmit: the `onClose` and `navigate` props
  are not modelled. They appear as the returned tree id to navigate to.
