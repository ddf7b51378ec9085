# SkillChain client core, modelled in Dafny

SkillChain is a browser client for issuing and checking skill badges. The
badges live on a remote ledger canister. Students list their badges, employers
verify a badge by id, and administrators mint new badges. This project models
the logic of that client that is more than rendering:

- the display formatters of `utils/format.ts`: principal shortening, badge-id
  labels, and the nanosecond to millisecond step of timestamps (module `Format`);
- the `getInitials` helper of the header (module `AppHeader`);
- the mint page's access gate, `handleSubmit` validation and normalisation, and
  its form state, as a class whose `Submit` method is proved against a pure
  `HandleSubmit` function (module `IssuerMintPage`);
- the read hooks `useGetCallerBadges` and `useGetBadgeById`: query keys,
  `enabled` conditions and `queryFn` outcomes (module `UseBadges`);
- the verification mutation (module `UseVerifyBadge`);
- the issue mutation and its cache invalidation on success (module `UseIssueBadge`),
  over an owned query cache object (module `QueryCache`).

Module `Backend` holds the datatypes of `backend.d.ts` and the remote actor.
The actor is an oracle: a record of total functions, one per remote method the
core calls (`getBadgesForUser`, `verifyBadge`, `issueBadge`), each returning how
its promise settles. Every hook returns a `Run`, which pairs
that settled outcome with the list of remote calls made. "No remote call" is
then stated as `calls == []`. Module `Text` models the JavaScript built-ins the
core uses: `trim`, `split(' ')`, `toUpperCase`, `slice(0, 2)` and
`bigint.toString()`, together with a decimal parser that inverts it. Its `Join`
with a separator character only serves to state that `Split` loses nothing;
the header's `join('')` of first characters is `AppHeader.FirstChars`.

Two inputs are abstract. `BigInt(string)` is a parameter
`parse: string -> Option<BadgeId>`, where `None` means it threw.
`Principal.fromText` is a parameter `fromText: string -> Option<Principal>`.

Two behaviours of the hooks are easy to misread; the model follows the code:

- A badge id that is not a number makes `useVerifyBadge` reject with
  `Invalid badge ID format`. It does not settle to `null`; only
  `useGetBadgeById` does that.
- In `useGetBadgeById` a remote failure is not turned into `null`. The remote
  promise is returned without `await`, so its rejection escapes the `catch`.
  `useVerifyBadge` does await it, so there a remote failure becomes the format
  error. `UseVerifyBadge.VerifyAgainstBadgeById` states both behaviours side
  by side.

## Model

| member | source | states |
|---|---|---|
| `Text.TrimStart` | src/frontend/src/pages/IssuerMintPage.tsx:35 | the result is the suffix of the input that starts at its first non-white-space character; everything dropped is white space |
| `Text.TrimEnd` | src/frontend/src/pages/IssuerMintPage.tsx:35 | the result is the prefix that ends at the last non-white-space character; everything dropped is white space |
| `Text.Trim` | src/frontend/src/pages/IssuerMintPage.tsx:35-59 | `trim()` never lengthens, and a non-empty result starts and ends with non-white-space |
| `Text.BlankIffWhiteSpace` | src/frontend/src/pages/IssuerMintPage.tsx:35-43 | `!s.trim()` holds exactly when every character of `s` is ECMAScript white space or a line terminator |
| `Text.TrimIdempotent` | src/frontend/src/pages/IssuerMintPage.tsx:54-59 | trimming an already trimmed value changes nothing |
| `Text.Split` | src/frontend/src/components/layout/AppHeader.tsx:25 | `split(' ')` yields at least one piece, no piece contains the separator, and joining the pieces with the separator gives back the input |
| `Text.SplitJoin` | src/frontend/src/components/layout/AppHeader.tsx:25 | conversely, splitting the join of any non-empty list of separator-free pieces gives back that list |
| `Text.UpperChar` | src/frontend/src/components/layout/AppHeader.tsx:28 | `a`-`z` map to `A`-`Z`; every other character is unchanged |
| `Text.ToUpper` | src/frontend/src/components/layout/AppHeader.tsx:28 | `toUpperCase()` keeps the length and upper-cases position by position |
| `Text.Take` | src/frontend/src/components/layout/AppHeader.tsx:29 | `slice(0, n)` is the prefix of length min(n, length) |
| `Text.TakeToUpper` | src/frontend/src/components/layout/AppHeader.tsx:28-29 | upper-casing then slicing equals slicing then upper-casing |
| `Text.NatToDecimal` | src/frontend/src/utils/format.ts:29 | the decimal rendering is a non-empty digit string with no leading zero |
| `Text.IntToDecimal` | src/frontend/src/utils/format.ts:29 | `bigint.toString()` is all digits exactly for non-negative values and starts with `-` exactly for negative ones |
| `Text.ParseDecimal` | src/frontend/src/utils/format.ts:29 | the reader accepts exactly an optional minus sign followed by one or more digits |
| `Text.NatDecimalRoundTrip` | src/frontend/src/utils/format.ts:29 | reading the digits of a natural number gives it back |
| `Text.IntDecimalRoundTrip` | src/frontend/src/utils/format.ts:29 | parsing `n.toString()` gives back `n` for every integer, negative ones included |
| `Format.NanosToMillis` | src/frontend/src/utils/format.ts:7 | bigint division by 1,000,000 truncates toward zero: for ns >= 0, ms*1e6 <= ns < (ms+1)*1e6; for ns < 0, (ms-1)*1e6 < ns <= ms*1e6 |
| `Format.NanosToMillisMagnitude` | src/frontend/src/utils/format.ts:7 | the conversion keeps the sign and is odd: converting -ns gives -ms |
| `Format.NanosToMillisMonotone` | src/frontend/src/utils/format.ts:7 | ns1 <= ns2 implies ms1 <= ms2 for all timestamps |
| `Format.FormatPrincipal` | src/frontend/src/utils/format.ts:20-23 | at most 16 characters: unchanged; longer: exactly 17 characters, the first 8, then `...`, then the last 6; never longer than the input |
| `Format.FormatPrincipalIdempotent` | src/frontend/src/utils/format.ts:20-23 | formatting an already formatted principal returns it unchanged |
| `Format.FormatBadgeId` | src/frontend/src/utils/format.ts:28-30 | the label is `#` followed by the bigint's decimal rendering |
| `Format.BadgeIdRoundTrip` | src/frontend/src/utils/format.ts:28-29 | stripping `#` and parsing the digits gives back the id, for every id |
| `Format.FormatBadgeIdInjective` | src/frontend/src/utils/format.ts:28-29 | distinct ids get distinct labels |
| `AppHeader.FirstChar` | src/frontend/src/components/layout/AppHeader.tsx:26-27 | an empty word contributes nothing (its `n[0]` is `undefined`); any other word contributes its first character |
| `AppHeader.FirstChars` | src/frontend/src/components/layout/AppHeader.tsx:26-27 | `map((n) => n[0]).join('')`: each word contributes at most one character, so the result is no longer than the word list |
| `AppHeader.GetInitials` | src/frontend/src/components/layout/AppHeader.tsx:23-30 | the initials have at most two characters |
| `AppHeader.FirstCharsOfSplit` | src/frontend/src/components/layout/AppHeader.tsx:24-27 | the split/map/join chain equals a single scan that keeps each non-space character standing at the start of the name or after a space |
| `AppHeader.InitialsAreWordStarts` | src/frontend/src/components/layout/AppHeader.tsx:24-29 | the initials are the upper-cased first characters of the non-empty words, in word order, cut to two |
| `AppHeader.EmptyNameInitials` | src/frontend/src/components/layout/AppHeader.tsx:24-29 | the empty name yields `""` |
| `AppHeader.FirstTwoWords` | src/frontend/src/components/layout/AppHeader.tsx:24-29 | a name whose first two words are non-empty and followed by a space yields exactly those two words' upper-cased initials, whatever comes after that space |
| `AppHeader.TwoWordName` | src/frontend/src/components/layout/AppHeader.tsx:24-29 | a plain two-word name yields the upper-cased first letters of its two words |
| `AppHeader.LeadingSpace` | src/frontend/src/components/layout/AppHeader.tsx:25-27 | a leading space does not change the initials |
| `AppHeader.TrailingSpace` | src/frontend/src/components/layout/AppHeader.tsx:25-27 | a trailing space does not change the initials |
| `AppHeader.DoubleSpace` | src/frontend/src/components/layout/AppHeader.tsx:25-27 | two spaces between words give the same initials as one |
| `QueryCache.Invalidate` | src/frontend/src/hooks/useIssueBadge.ts:24-25 | `invalidateQueries` marks every entry whose key starts with the prefix stale, keeps the others' flags, and adds or removes no entry |
| `QueryCache.InvalidateIdempotent` | src/frontend/src/hooks/useIssueBadge.ts:24-25 | invalidating twice under one prefix equals invalidating once |
| `QueryCache.InvalidateCommutes` | src/frontend/src/hooks/useIssueBadge.ts:24-25 | the order of the two invalidations does not matter |
| `QueryCache.Cache.InvalidateQueries` | src/frontend/src/hooks/useIssueBadge.ts:24-25 | the cache's new entries are `Invalidate` of the old ones |
| `UseBadges.CallerBadgesKey` | src/frontend/src/hooks/useBadges.ts:11 | the key is `['callerBadges', principal text]`, with `undefined` in second place when there is no identity |
| `UseBadges.CallerBadgesQuery` | src/frontend/src/hooks/useBadges.ts:12-15 | without actor or identity: `[]` and no remote call; otherwise one `getBadgesForUser(caller)` call, whose outcome (rejection included) is the query's outcome |
| `UseBadges.CallerBadgesEnabled` | src/frontend/src/hooks/useBadges.ts:16 | the query runs only with an actor that is not being fetched and an identity |
| `UseBadges.NoIdentityNoRemote` | src/frontend/src/hooks/useBadges.ts:11-16 | without an identity the query is disabled, its `queryFn` settles to `[]` without a remote call, and its key holds `undefined` |
| `UseBadges.EnabledCallerQueryAsksKeyPrincipal` | src/frontend/src/hooks/useBadges.ts:11-16 | when enabled, the `queryFn` asks the remote about exactly the principal its key names |
| `UseBadges.CallerBadgesKeyInjective` | src/frontend/src/hooks/useBadges.ts:11 | different callers are cached under different keys |
| `UseBadges.BadgeKey` | src/frontend/src/hooks/useBadges.ts:24 | the key is `['badge', badgeId]` |
| `UseBadges.BadgeEnabled` | src/frontend/src/hooks/useBadges.ts:35 | the query runs only with an actor that is not being fetched and a non-empty id |
| `UseBadges.EnabledBadgeQuery` | src/frontend/src/hooks/useBadges.ts:35 | enabled only for a non-empty id with a ready actor; the remote is then asked exactly when the id parses |
| `UseBadges.BadgeByIdQuery` | src/frontend/src/hooks/useBadges.ts:25-34 | no actor: `null`; an unparsable id: `null` and no remote call; otherwise one `verifyBadge(id)` call, whose outcome is returned exactly |
| `UseBadges.BadgeByIdRemoteRejectionEscapes` | src/frontend/src/hooks/useBadges.ts:27-33 | a remote rejection reaches the caller with the remote's own message, not as `null` |
| `UseBadges.BadgeByIdNonNullMeansRemote` | src/frontend/src/hooks/useBadges.ts:25-34 | any outcome other than `null` comes from one remote call about the parsed id |
| `UseVerifyBadge.VerifyBadgeMutation` | src/frontend/src/hooks/useVerifyBadge.ts:8-19 | no actor: `Actor not available` before parsing; unparsable id: `Invalid badge ID format` and no remote call; otherwise one `verifyBadge(id)` call, a resolved reply (`null` included) returned as is, a rejection relabelled as the format error; no cache is involved |
| `UseVerifyBadge.VerifyErrorsAreLocal` | src/frontend/src/hooks/useVerifyBadge.ts:10-17 | verification rejects only with one of its two local messages |
| `UseVerifyBadge.VerifyAgainstBadgeById` | src/frontend/src/hooks/useVerifyBadge.ts:12-17 | verification and the single-badge query make the same calls and agree when the remote resolves; a bad id is `null` for one and an error for the other; a remote rejection keeps its message in the query and becomes the format error in verification |
| `UseVerifyBadge.MintedIdVerifiesThatBadge` | src/frontend/src/hooks/useVerifyBadge.ts:13-14 | an id rendered as the mint page shows it is verified by asking the remote about that same id, given that `BigInt` reads decimal literals as decimal |
| `UseIssueBadge.IssueBadgeMutation` | src/frontend/src/hooks/useIssueBadge.ts:18-21 | no actor: `Actor not available` and no remote call; otherwise the four arguments go to `issueBadge` unchanged and its outcome is returned |
| `UseIssueBadge.AfterIssue` | src/frontend/src/hooks/useIssueBadge.ts:22-26 | after `onSuccess` every entry in the `callerBadges` and `badge` families is stale, every other entry is unchanged, and the key set is the same |
| `UseIssueBadge.IssueAndInvalidate` | src/frontend/src/hooks/useIssueBadge.ts:17-27 | the mutation's outcome is `IssueBadgeMutation`'s; the cache becomes `AfterIssue` of itself on success and is untouched on failure |
| `UseIssueBadge.IssueForcesBadgeRefetch` | src/frontend/src/hooks/useIssueBadge.ts:22-26 | after a successful issue, every caller-badges key and every single-badge key of the read hooks is stale or uncached |
| `UseIssueBadge.IssueKeepsOtherFamilies` | src/frontend/src/hooks/useIssueBadge.ts:24-25 | an entry whose key starts with any other name keeps its flag |
| `IssuerMintPage.Gate` | src/frontend/src/pages/IssuerMintPage.tsx:76-99 | a skeleton exactly while admin status loads; the form exactly when loaded, authenticated and `isAdmin` is `true`; access denied otherwise |
| `IssuerMintPage.Blank` | src/frontend/src/pages/IssuerMintPage.tsx:35-43 | `!s.trim()`: the trimmed input is empty (by `Text.BlankIffWhiteSpace`, exactly when it is all white space) |
| `IssuerMintPage.OrNull` | src/frontend/src/pages/IssuerMintPage.tsx:57-58 | `s.trim() \|\| null` is absent exactly when `s` is all white space, and is the trimmed text otherwise |
| `IssuerMintPage.OrNullTrimmed` | src/frontend/src/pages/IssuerMintPage.tsx:57-58 | a present optional value is non-empty and already trimmed |
| `IssuerMintPage.Validate` | src/frontend/src/pages/IssuerMintPage.tsx:35-59 | the first failing check is reported: blank owner, then blank skill, then malformed principal; when all pass, the arguments are the parsed trimmed owner, the trimmed skill and the two optional fields |
| `IssuerMintPage.ValidArgsAreNormalised` | src/frontend/src/pages/IssuerMintPage.tsx:54-59 | validated arguments have a non-empty trimmed skill name, and each optional field is absent or non-empty and trimmed |
| `IssuerMintPage.EarlierChecksWin` | src/frontend/src/pages/IssuerMintPage.tsx:35-51 | with a blank owner, validation depends on nothing else; with a blank skill, on nothing but the owner |
| `IssuerMintPage.Settle` | src/frontend/src/pages/IssuerMintPage.tsx:61-72 | once the mutation settles: on success the id's decimal string is recorded, the inputs are cleared and the success toast shown; on rejection the state is kept and the error's message (or the fallback for an empty one) shown |
| `IssuerMintPage.HandleSubmit` | src/frontend/src/pages/IssuerMintPage.tsx:31-73 | `handleSubmit` on a given state: a failed check reports its message with no call and no change; a valid form goes through the issue mutation and `Settle` |
| `IssuerMintPage.OnSubmit` | src/frontend/src/pages/IssuerMintPage.tsx:139-168 | the form's submit event: blocked by the browser (nothing happens) while the `required` owner or skill input is empty; `handleSubmit` otherwise |
| `IssuerMintPage.RequiredLeavesWhiteSpace` | src/frontend/src/pages/IssuerMintPage.tsx:35-43 | behind the `required` attribute, a blank owner or skill that `handleSubmit` reports is one or more white-space characters |
| `IssuerMintPage.BlankOwnerRejected` | src/frontend/src/pages/IssuerMintPage.tsx:35-38 | an all-white-space owner gives the owner message, no remote call, no state change and no issue |
| `IssuerMintPage.BlankSkillRejected` | src/frontend/src/pages/IssuerMintPage.tsx:40-43 | with an owner, an all-white-space skill gives the skill message, no remote call and no state change |
| `IssuerMintPage.MalformedOwnerRejected` | src/frontend/src/pages/IssuerMintPage.tsx:45-51 | an owner that `Principal.fromText` rejects gives the format message, no remote call and no state change |
| `IssuerMintPage.ValidFormIsIssued` | src/frontend/src/pages/IssuerMintPage.tsx:53-59 | a valid form makes one `issueBadge` call with the trimmed owner and skill and the normalised optional fields (none without an actor) |
| `IssuerMintPage.SuccessResetsForm` | src/frontend/src/pages/IssuerMintPage.tsx:61-68 | after a successful issue the four inputs are `""`, the success toast is shown, and the minted id string parses back to the id the remote returned |
| `IssuerMintPage.FailureKeepsForm` | src/frontend/src/pages/IssuerMintPage.tsx:69-72 | whenever no badge is issued the form state is exactly as before and an error toast is shown |
| `IssuerMintPage.NoActorReported` | src/frontend/src/pages/IssuerMintPage.tsx:53-72 | a valid form with no actor shows `Actor not available`, calls nothing and changes nothing |
| `IssuerMintPage.MintForm.constructor` | src/frontend/src/pages/IssuerMintPage.tsx:23-27 | the four inputs start as `""` and no minted id is shown |
| `IssuerMintPage.MintForm.SetOwnerPrincipal` | src/frontend/src/pages/IssuerMintPage.tsx:150 | the owner input changes to the typed value and nothing else changes |
| `IssuerMintPage.MintForm.SetSkillName` | src/frontend/src/pages/IssuerMintPage.tsx:167 | the skill input changes to the typed value and nothing else changes |
| `IssuerMintPage.MintForm.SetLevel` | src/frontend/src/pages/IssuerMintPage.tsx:178 | the level input changes to the typed value and nothing else changes |
| `IssuerMintPage.MintForm.SetDescription` | src/frontend/src/pages/IssuerMintPage.tsx:188 | the description input changes to the typed value and nothing else changes |
| `IssuerMintPage.MintForm.Submit` | src/frontend/src/pages/IssuerMintPage.tsx:31-73 | the new form state, toast and remote calls are those of `HandleSubmit` on the old state; the cache is invalidated as `AfterIssue` exactly when a badge was issued |
| `IssuerMintPage.MintForm.SubmitForm` | src/frontend/src/pages/IssuerMintPage.tsx:139-168 | an empty owner or skill input leaves state, cache and calls unchanged and shows nothing; otherwise the outcome is `Submit`'s, i.e. `HandleSubmit`'s, with the cache invalidated exactly when a badge was issued |
| `IssuerMintPage.MintForm.Finish` | src/frontend/src/pages/IssuerMintPage.tsx:61-72 | after the mutation settles, the fields are updated one by one to `Settle`'s state and its toast is returned |

## Left out

- JavaScript strings count UTF-16 code units; the model's strings count Unicode scalar values. `formatPrincipal`'s 16, 8 and 6, and `n[0]` on a character outside the Basic Multilingual Plane, therefore differ for such characters.
- `Text.UpperChar`: upper-cases the ASCII letters only. Full Unicode case mapping is not modelled, including mappings that lengthen a string (such as `ß` to `SS`), which in the source happen before `slice(0, 2)`.
- `BigInt(string)`'s grammar (surrounding white space, signs, `0x`/`0o`/`0b` prefixes, `""` read as `0`) is not modelled. The hooks take the parse as a parameter. Only `UseVerifyBadge.MintedIdVerifiesThatBadge` assumes how it reads plain decimal literals.
- `Principal.fromText`'s checksum and base-32 decoding are not modelled; it is a parameter.
- `formatTimestamp`'s `Number(...)`, `new Date(...)` and `toLocaleDateString`: floating-point and locale behaviour of the host. Only the integer division is modelled.
- The remote ledger is an oracle with one fixed reply per call. Its state across calls is not modelled: badge-id allocation, the `verified` flag and persistence.
- The query cache keeps only a stale flag per key. Cached data, fetch status, request deduplication, refetch timing and garbage collection are react-query internals. That `invalidateQueries` selects by key prefix is an assumption of the model.
- Asynchrony: pending states, the submit button disabled while pending (`IssuerMintPage.tsx:193`), overlapping requests, and abandoned or unmounted queries. Each operation is modelled as running to completion.
- The browser's constraint validation is modelled only as the `required` check on the owner and skill inputs (`IssuerMintPage.tsx:151`, `:168`), which blocks submission while either holds `""`. Its message bubble is not modelled. `IssuerMintPage.MintForm.Submit` is `handleSubmit` called directly; `IssuerMintPage.MintForm.SubmitForm` is the form's submit event.
- Side channels: toasts are returned as values; `console.error`, `e.preventDefault()`, the clipboard and window navigation are dropped.
- The `useActor`, `useInternetIdentity` and `useIsCallerAdmin` hooks are not part of this model. Their results (actor, identity, `isFetching`, `isLoading`, `isAdmin`) are inputs.
- Rendering: all JSX, the rest of `AppHeader.tsx`, the other pages and components, and the route table.
