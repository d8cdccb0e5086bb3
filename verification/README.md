# StacksBio core, modelled in Dafny

StacksBio is a link-in-bio site for the Stacks blockchain. A user connects a wallet, creates a profile
(a unique username, a display name, an optional bio and avatar, a theme) and publishes a list of styled
links. Visitors see the active links in order. On chain, a `profile` contract and a `links` contract hold
the records. Their behaviour is known only from the repository's Clarinet tests, because the contract
source is not part of the repository.

The model has three parts.

- **The on-chain record store** (`ledger.dfy`, `profile_contract.dfy`, `links_contract.dfy`, `chain.dfy`).
  - The store is immutable. Profiles are keyed by id and indexed by username and by owner. Links are keyed
    by id and carry their creator. Each record kind has its own id counter, and the deployer is the admin.
  - Every public function takes the sender and returns `Ok(value)` or `Err(code)` with the new store.
    An `Err` leaves the store unchanged, as a failing Clarity response reverts its transaction.
  - A block applies its transactions in array order, one receipt each.
  - The invariant `Ledger.Valid` is proved preserved by every operation and by every block. It says the ids
    sit under their own keys and below the counter, and that both profile indexes are exact bijections.
- **The client argument builders** of `src/lib/stacks.ts` (`clarity.dfy`, `stacks_client.dfy`,
  `stacks_placeholders.dfy`).
  - They turn requests into lists of Clarity values and split a configured `address.name` contract
    identifier into its two halves.
  - A decoder models how the contract reads the arguments back. Round-trip lemmas relate the decoder to
    the builders.
  - The profile calls of that file are placeholders that answer without the chain. Lemmas state exactly
    when each placeholder's answer agrees with the contract's.
- **The frontend logic** (`frontend_types.dfy`, `links_hook.dfy`, `profile_hook.dfy`,
  `profile_preview.dfy`, `dashboard.dfy`). This covers:
  - the `useLinks` list transforms and the `useProfile` merge-patch;
  - the visible-link selection, the style mapping and the like toggle of `ProfilePreview`;
  - the profile-creation gate, the new-link defaults and the analytics totals of `Dashboard`.

Asynchronous answers, the current time and generated ids are parameters of the functions that need them.

Error codes:
- 100 (not authorised) comes from the tests.
- 102 (profile exists) comes from the tests.
- 200 (not the link owner) comes from the tests.
- 101 (profile not found) and 201 (link not found) are placeholders. No test shows a not-found response,
  so these two values are unconfirmed.
- The tests show code 200 for a non-owner only for `update-link` and `delete-link`. The model assumes the
  same code for `update-link-style` and for `increment-click-count`.

Other modelling choices:
- `increment-click-count` is only ever called by the link's creator in the tests. Whether other callers may
  increment is a deployment flag of the store (`anyCallerMayClick`). With the flag off, a non-creator gets
  the assumed code 200 and the store is unchanged, and the lifecycle lemmas use that case. With the flag on,
  nothing is stated about a non-creator's call.
- The placeholder bio of `useProfile` ends in four characters (U+00F0 U+0178 U+0161 U+20AC). They are the
  UTF-8 bytes of a rocket emoji decoded as Windows-1252. The model keeps them as the file spells them.

## Model

| member | source | states |
|---|---|---|
| Ledger.Deploy | tests/profile_test.ts:173-178 | a freshly deployed store has both counters at 0, the deployer as admin, every username available and no link |
| Ledger.DeployValid | tests/profile_test.ts:10-22 | the deployed store satisfies the store invariant |
| Ledger.AvailableIffUnheld | tests/profile_test.ts:167-199 | a username is available exactly when no stored profile carries it |
| Ledger.LookupByUsername | tests/profile_test.ts:159-163 | get-profile-by-username returns some exactly when the name is taken, and then the profile carrying that name |
| Ledger.LookupByOwner | tests/profile_test.ts:98-106 | the by-owner lookup finds a profile exactly when one is owned by the caller, and it is that caller's |
| Ledger.GetLinkById | tests/links_test.ts:147-151 | get-link finds exactly the stored ids, returns the link under that id, and never finds id 0 or one above the counter |
| Ledger.ProfilesUnique | tests/profile_test.ts:26-79 | no two stored profiles share a username or an owner |
| ProfileContract.CreateProfile | tests/profile_test.ts:4-79 | fails with 102, store unchanged, exactly when the name is taken or the caller owns a profile; otherwise returns the next profile id and adds exactly the new profile under that id and indexes it by username and owner, every other profile, index entry and link untouched |
| ProfileContract.UpdateProfile | tests/profile_test.ts:81-108 | fails without a profile for the caller; otherwise returns true and replaces exactly the supplied fields of the caller's profile, and the rest of the store (other profiles, indexes, counters, admin, flag, links) is unchanged |
| ProfileContract.UpdateTheme | tests/profile_test.ts:110-140 | fails without a profile for the caller; otherwise returns true and sets the caller's theme, and the rest of the store (other profiles, indexes, counters, admin, flag, links) is unchanged |
| ProfileContract.VerifyProfile | tests/profile_test.ts:201-238 | a non-admin gets 100 with the store unchanged; the admin verifies an existing profile, and the rest of the store (other profiles, indexes, counters, admin, flag, links) is unchanged |
| ProfileContract.CreateProfileKeepsOthers | tests/profile_test.ts:26-79 | on a valid store a successful create keeps every existing profile, and every other username and owner resolves as before |
| ProfileContract.CreateProfileValid | tests/profile_test.ts:26-79 | create-profile preserves the store invariant |
| ProfileContract.UpdateProfileValid | tests/profile_test.ts:98-106 | update-profile preserves the store invariant |
| ProfileContract.UpdateThemeValid | tests/profile_test.ts:127-138 | update-theme preserves the store invariant |
| ProfileContract.VerifyProfileValid | tests/profile_test.ts:221-236 | verify-profile preserves the store invariant |
| ProfileContract.FirstProfileGetsIdOne | tests/profile_test.ts:10-22 | the first create-profile on a fresh store returns ok u1, whatever its arguments |
| ProfileContract.CreateThenLookup | tests/profile_test.ts:142-165 | after a successful create the name resolves to a profile with that name and display name, and is no longer available |
| ProfileContract.SecondProfileForOwnerRejected | tests/profile_test.ts:54-79 | a caller who already owns a profile gets 102 for any username, store unchanged |
| ProfileContract.TakenUsernameRejected | tests/profile_test.ts:26-52 | any caller asking for a stored profile's username gets 102, store unchanged |
| ProfileContract.OnlyAdminVerifies | tests/profile_test.ts:221-236 | on an existing profile, a non-admin gets 100 and the admin gets ok true with the profile verified |
| LinksContract.CreateLink | tests/links_test.ts:4-30 | always returns the next link id and stores an active link with zero clicks owned by the caller; apart from the new link and the link counter the store is unchanged |
| LinksContract.OwnerGate | tests/links_test.ts:190-265 | a link mutation passes exactly for the link's creator; a missing link gives the not-found code and another caller gives 200 |
| LinksContract.UpdateLink | tests/links_test.ts:32-70 | fails as the owner gate says with the store unchanged; otherwise replaces exactly the supplied fields of that link, and the rest of the store is unchanged |
| LinksContract.UpdateLinkStyle | tests/links_test.ts:72-111 | fails as the owner gate says with the store unchanged; otherwise replaces the style of that link, and the rest of the store is unchanged |
| LinksContract.DeleteLink | tests/links_test.ts:113-153 | fails as the owner gate says with the store unchanged; otherwise removes that link, and the rest of the store, the link counter included, is unchanged |
| LinksContract.IncrementClickCount | tests/links_test.ts:155-188 | a missing link fails with the store unchanged; the creator always succeeds; on success that link's count alone grows by one and the rest of the store is unchanged |
| LinksContract.CreateLinkValid | tests/links_test.ts:10-28 | create-link preserves the store invariant |
| LinksContract.UpdateLinkValid | tests/links_test.ts:57-68 | update-link preserves the store invariant |
| LinksContract.UpdateLinkStyleValid | tests/links_test.ts:97-109 | update-link-style preserves the store invariant |
| LinksContract.DeleteLinkValid | tests/links_test.ts:138-144 | delete-link preserves the store invariant |
| LinksContract.IncrementClickCountValid | tests/links_test.ts:180-186 | increment-click-count preserves the store invariant |
| LinksContract.FirstLinkNeedsNoProfile | tests/links_test.ts:10-28 | on a fresh store a caller with no profile creates a link and gets ok u1 |
| LinksContract.NonOwnerRejected | tests/links_test.ts:216-263 | a caller other than the creator gets 200 from update-link, update-link-style and delete-link, store unchanged |
| LinksContract.OwnerSucceeds | tests/links_test.ts:57-186 | the creator gets ok true from update-link, update-link-style, delete-link and increment-click-count |
| LinksContract.IncrementAddsOne | tests/links_test.ts:180-186 | a successful increment adds exactly one to the click count and changes no other field |
| LinksContract.CreateThenGet | tests/links_test.ts:292-296 | after create-link, get-link of the returned id is some and owned by the caller |
| LinksContract.DeleteThenGet | tests/links_test.ts:138-151 | the creator's delete returns ok true and get-link of that id then returns none |
| Chain.Step | tests/profile_test.ts:40-50 | a transaction whose response is an error leaves the store unchanged |
| Chain.MineBlock | tests/profile_test.ts:33-50 | a block yields one receipt per transaction |
| Chain.MineBlockAppend | tests/profile_test.ts:33-50 | mining a + b is mining a and then mining b on the store a left |
| Chain.MineBlockInOrder | tests/profile_test.ts:33-50 | the i-th receipt is the i-th transaction applied to the store its predecessors left |
| Chain.StepValid | tests/profile_test.ts:26-79 | every transaction preserves the store invariant |
| Chain.MineBlockValid | tests/profile_test.ts:26-79 | every block preserves the store invariant |
| Chain.StepMonotone | tests/links_test.ts:138-151 | no transaction lowers an id counter or changes the admin |
| Chain.MineBlockMonotone | tests/links_test.ts:138-151 | no block lowers an id counter or changes the admin |
| Chain.DeletedLinkIdNotReused | tests/links_test.ts:138-151 | after a delete and any later blocks, a create-link by any caller never hands out the deleted id again |
| Chain.SameUsernameFirstWins | tests/profile_test.ts:33-50 | two creates of one name in one block: the first gets the next id, the second 102 |
| Chain.SameOwnerFirstWins | tests/profile_test.ts:60-77 | two creates by one caller in one block: the first gets the next id, the second 102 even with another name |
| Chain.FreshDuplicateBlocks | tests/profile_test.ts:26-79 | the two duplicate-create test blocks on a fresh store give receipts ok u1 and err u102 |
| Chain.ProfileLifecycle | tests/profile_test.ts:81-238 | create, update-profile and update-theme by the owner succeed; verify by a non-admin gives 100, then by the admin ok true |
| Chain.LinkLifecycle | tests/links_test.ts:32-265 | after create, the creator's update, style update, increment and delete succeed, the deleted link is gone, and another caller gets 200 |
| StacksClient.ConfiguredContract | src/lib/stacks.ts:9-13 | an unset or empty environment identifier falls back to the default one |
| StacksClient.Split | src/lib/stacks.ts:169-170 | splitting yields at least one segment, so the address half always exists |
| StacksClient.SplitHead | src/lib/stacks.ts:169-170 | the first split segment is the longest separator-free prefix, the rest splits the remainder, and there is one segment exactly when the separator is absent |
| StacksClient.JoinSplit | src/lib/stacks.ts:169-170 | joining the split segments with the separator gives back the identifier |
| StacksClient.ContractAddress | src/lib/stacks.ts:169 | the address is a dot-free prefix of the identifier ending at its end or at its first dot |
| StacksClient.ContractName | src/lib/stacks.ts:170 | the name is undefined exactly when the identifier has no dot, and is dot-free otherwise |
| StacksClient.ContractIdentifierParts | src/lib/stacks.ts:169-170 | for `address.name` with dot-free halves, the address and the name are recovered exactly |
| StacksClient.CreateLinkArgs | src/lib/stacks.ts:155-166 | ten arguments in the fixed order and types; each optional string is none exactly when absent or empty, else some of it |
| StacksClient.UpdateLinkArgs | src/lib/stacks.ts:192-199 | six arguments, uint link id first, then five optionals; isActive is none only when undefined |
| StacksClient.UpdateLinkFalsyFields | src/lib/stacks.ts:194-198 | isActive false is sent as some(false) while empty title, url, description and icon are sent as none |
| StacksClient.IdRoundTrip | src/lib/stacks.ts:224 | the single-uint argument list of delete-link, get-link and get-profile-totals decodes to its id, and every list decoding to an id is that id's encoding |
| StacksClient.ProfileViewRoundTrip | src/lib/stacks.ts:275-279 | the record-profile-view list decodes to the profile id and visitor buffer, and every list decoding to them is their encoding |
| StacksClient.LinkClickRoundTrip | src/lib/stacks.ts:306-310 | the record-link-click list decodes to the profile id, link id and visitor buffer in that order, and every list decoding to them is their encoding |
| StacksClient.CreateLink | src/lib/stacks.ts:150-181 | createLink calls create-link with arguments the contract decodes back to the request, empty optionals as absent |
| StacksClient.UpdateLink | src/lib/stacks.ts:186-214 | updateLink calls update-link with arguments the contract decodes back to the link id and the request, empty strings as absent |
| StacksClient.DeleteLink | src/lib/stacks.ts:219-239 | deleteLink calls delete-link with arguments that decode to the link id |
| StacksClient.GetLink | src/lib/stacks.ts:244-260 | getLink queries get-link with arguments that decode to the link id, sent from the contract's own address |
| StacksClient.RecordProfileView | src/lib/stacks.ts:269-294 | recordProfileView calls record-profile-view with arguments that decode to the profile id and the visitor hash |
| StacksClient.RecordLinkClick | src/lib/stacks.ts:299-325 | recordLinkClick calls record-link-click with arguments that decode to the profile id, the link id and the visitor hash |
| StacksClient.GetProfileTotals | src/lib/stacks.ts:330-346 | getProfileTotals queries get-profile-totals with arguments that decode to the profile id, sent from the contract's own address |
| StacksClient.CallsTargetIdentifier | src/lib/stacks.ts:150-346 | with a well-formed identifier, every builder targets that contract under its own function name with its argument list |
| StacksClient.DefaultLinksTarget | src/lib/stacks.ts:11 | by default, links calls go to the `links` contract of the default deployer |
| StacksClient.CreateLinkRoundTrip | src/lib/stacks.ts:155-166 | decoding the create-link arguments gives back the request, empty optionals read as absent |
| StacksClient.CreateLinkEncodingComplete | src/lib/stacks.ts:155-166 | every decodable argument list is the encoding of the request it decodes to |
| StacksClient.UpdateLinkRoundTrip | src/lib/stacks.ts:192-199 | decoding the update-link arguments gives back the id and the request, empty strings read as absent |
| StacksClient.UpdateLinkEncodingComplete | src/lib/stacks.ts:192-199 | every decodable update-link argument list is the encoding of what it decodes to |
| StacksPlaceholders.AvailabilityPlaceholder | src/lib/stacks.ts:113-120 | on a valid store the availability placeholder succeeds, and its "available" agrees with is-username-available exactly for names no profile holds |
| StacksPlaceholders.LookupPlaceholder | src/lib/stacks.ts:89-108 | both lookup placeholders fail with null, which agrees with the contract exactly when the name is free, respectively when the owner has no profile |
| StacksPlaceholders.CreatePlaceholder | src/lib/stacks.ts:50-61 | the create placeholder reports success with the mock id, which agrees with create-profile exactly when the name is free and the caller has no profile |
| StacksPlaceholders.UpdatePlaceholder | src/lib/stacks.ts:63-87 | the update and theme placeholders report success, which agrees with update-profile and update-theme exactly when the caller owns a profile |
| FrontendTypes.RadiusNames | src/types/index.ts:41 | border-radius values and their ascii names are inverse |
| FrontendTypes.ShadowNames | src/types/index.ts:42 | shadow values and their ascii names are inverse |
| FrontendTypes.ButtonStyleNames | src/types/index.ts:51 | button styles and their ascii names are inverse |
| FrontendTypes.LayoutNames | src/types/index.ts:52 | layouts and their ascii names are inverse |
| LinksHook.AddLink | src/hooks/useLinks.ts:96-118 | one link is appended after the unchanged list, carrying the supplied fields, the given id and time, and zero clicks; the response returns it |
| LinksHook.MergeLink | src/hooks/useLinks.ts:132 | every field the update carries overrides the link's, every other field is kept |
| LinksHook.MergeLinkComposes | src/hooks/useLinks.ts:132 | two successive merges equal one merge of the combined update; the empty update is the identity |
| LinksHook.MapUpdate | src/hooks/useLinks.ts:131-133 | same length; each position is merged if its id matches and unchanged otherwise |
| LinksHook.UpdateLink | src/hooks/useLinks.ts:124-141 | length and order kept, only matching links merged, success reported |
| LinksHook.UpdateUnknownIdIsNoop | src/hooks/useLinks.ts:131-135 | an id no link carries leaves the list unchanged |
| LinksHook.RemoveId | src/hooks/useLinks.ts:154 | no survivor carries the id, every link without it survives, and nothing new appears |
| LinksHook.RemoveIdAppend | src/hooks/useLinks.ts:154 | the filter distributes over concatenation, so survivors keep their relative order |
| LinksHook.RemoveIdAbsent | src/hooks/useLinks.ts:154 | removing an id no link carries changes nothing |
| LinksHook.RemoveIdIdempotent | src/hooks/useLinks.ts:154 | removing an id twice is removing it once |
| LinksHook.DeleteLink | src/hooks/useLinks.ts:147-162 | every link with the id goes, the others stay, success reported |
| LinksHook.ReorderIgnoresCurrent | src/hooks/useLinks.ts:168-183 | the reorder result does not depend on the previous list, and repeating it changes nothing |
| LinksHook.FetchLinks | src/hooks/useLinks.ts:19-90 | without a non-empty user id nothing changes; otherwise the placeholder links load with no error and loading ended |
| ProfileHook.MergeProfile | src/hooks/useProfile.ts:68 | supplied fields override, others are kept, and updatedAt is the current time whatever the update says |
| ProfileHook.MergeProfileComposes | src/hooks/useProfile.ts:68 | two updates equal one combined update at the later time; the empty update only refreshes updatedAt |
| ProfileHook.UpdateProfile | src/hooks/useProfile.ts:60-78 | with no loaded profile the state stays empty; with one it is merged; success either way |
| ProfileHook.MockProfile | src/hooks/useProfile.ts:28-46 | the placeholder profile carries the requested username and the current time |
| ProfileHook.FetchProfile | src/hooks/useProfile.ts:19-54 | the fetch ends with a profile for the requested username, no error, loading ended |
| ProfileHook.OnUsername | src/hooks/useProfile.ts:80-84 | no username, or an empty one, leaves the state unchanged; a username loads its profile |
| ProfilePreview.ActiveLinks | src/components/ProfilePreview.tsx:134 | the kept links are all active, and each active link is kept exactly as often as it occurs; no inactive one is kept |
| ProfilePreview.ActiveLinksAppend | src/components/ProfilePreview.tsx:134 | filtering a concatenation concatenates the filtered halves, so the kept links keep their relative order |
| ProfilePreview.Insert | src/components/ProfilePreview.tsx:135 | inserting adds exactly the one element |
| ProfilePreview.InsertSorted | src/components/ProfilePreview.tsx:135 | inserting into a list sorted by order keeps it sorted |
| ProfilePreview.SortByOrder | src/components/ProfilePreview.tsx:135 | the result is a permutation of the input, sorted ascending by order |
| ProfilePreview.InsertStable | src/components/ProfilePreview.tsx:135 | insertion puts the element ahead of the equal-order elements that followed it |
| ProfilePreview.SortStable | src/components/ProfilePreview.tsx:135 | links with equal order keep their relative order, as with the stable array sort |
| ProfilePreview.VisibleLinks | src/components/ProfilePreview.tsx:133-135 | the rendered links are a permutation of the active links, sorted ascending by order |
| ProfilePreview.VisibleLinksStable | src/components/ProfilePreview.tsx:133-135 | within one order value the rendered links keep the list's order |
| ProfilePreview.RadiusCss | src/components/ProfilePreview.tsx:154-159 | an unknown radius name falls through to 0.5rem |
| ProfilePreview.BorderRadiusCss | src/components/ProfilePreview.tsx:154-159 | none, sm, md, lg, full map to 0, 0.375rem, 0.5rem, 0.75rem, 9999px |
| ProfilePreview.BorderColor | src/components/ProfilePreview.tsx:153 | the border colour is used when present and non-empty, else the background colour |
| ProfilePreview.BorderBlendsIff | src/components/ProfilePreview.tsx:150-160 | the button border equals its background exactly when no border colour is set or it is the background colour |
| ProfilePreview.RadiusCssDistinct | src/components/ProfilePreview.tsx:150-160 | two buttons get the same corner CSS exactly when their radius settings are equal |
| ProfilePreview.ToggleLike | src/components/ProfilePreview.tsx:34-44 | the toggled id flips membership and every other id keeps it |
| ProfilePreview.ToggleLikeTwice | src/components/ProfilePreview.tsx:36-41 | toggling an id twice restores the set, and toggles commute |
| ProfilePreview.NoActiveLinks | src/components/ProfilePreview.tsx:134 | a list without active links keeps nothing |
| ProfilePreview.EmptyStateIff | src/components/ProfilePreview.tsx:219 | the empty-state message shows exactly for an empty list and then no link shows; a list with an active link shows it instead |
| ProfilePreview.AllInactiveRendersNothing | src/components/ProfilePreview.tsx:219 | a non-empty all-inactive list renders no link and no empty-state message |
| Dashboard.OpenCreateForm | src/components/Dashboard.tsx:62-66 | the form opens for a connected wallet with no profile once nothing loads, and the effect never closes it |
| Dashboard.ScreenOf | src/components/Dashboard.tsx:142-157 | the wallet prompt exactly when disconnected, the form exactly when connected with the form open, the tabs otherwise |
| Dashboard.NewUserSeesForm | src/components/Dashboard.tsx:62-66 | a connected wallet with no profile sees the form once loading ends |
| Dashboard.OrUndefined | src/components/Dashboard.tsx:92-93 | an empty string becomes undefined, any other is kept |
| Dashboard.RequestRoundTrip | src/components/Dashboard.tsx:89-94 | the request loses no form field, never carries an empty optional, and each such request comes from exactly one form |
| Dashboard.ErrorText | src/components/Dashboard.tsx:105 | the failure toast shows the response's error when non-empty, else the fixed message |
| Dashboard.HandleCreateProfile | src/components/Dashboard.tsx:68-109 | an empty required field gives only the error toast; otherwise the availability check comes first, and an unavailable name stops there with its toast |
| Dashboard.HandleCreateProfileAsWritten | src/components/Dashboard.tsx:36-42 | with the required fields filled the handler rejects before any toast, because the hook members it calls are undefined |
| Dashboard.AsWrittenNeverCreates | src/components/Dashboard.tsx:36-42 | as written, no form reaches createProfile or closes the form, while the intended handler creates for a filled form |
| Dashboard.RequiredFieldsCheckedFirst | src/components/Dashboard.tsx:69-76 | an empty required field gives the same effects whatever the availability and create answers, and never creates |
| Dashboard.CreateCalledIff | src/components/Dashboard.tsx:79-94 | createProfile is called exactly when both required fields are filled and the name is available, with the form's request |
| Dashboard.FormClosesIff | src/components/Dashboard.tsx:96-108 | the form closes exactly after a successful create |
| Dashboard.HandleAddLink | src/components/Dashboard.tsx:111-127 | the list is kept and one link is appended after it: order links.length + 1, active, zero clicks, the given id and time, the placeholder style |
| Dashboard.TotalClicks | src/components/Dashboard.tsx:434 | with nonnegative click counts the click total is nonnegative |
| Dashboard.TotalClicksBounds | src/components/Dashboard.tsx:425-434 | with every count between 0 and m, the click total lies between 0 and m times the link total |
| Dashboard.SumClickCounts | src/components/Dashboard.tsx:434 | the reduce loop returns the sum of the click counts |
| Dashboard.TotalClicksAppend | src/components/Dashboard.tsx:434 | the click total of a concatenation is the sum of the totals |
| Dashboard.TotalClicksPermutation | src/components/Dashboard.tsx:434 | the click total does not depend on the order of the links |
| Dashboard.AddLinkKeepsClicks | src/components/Dashboard.tsx:425-434 | adding a link raises the link total by one and keeps the click total |
| Dashboard.ReorderKeepsTotals | src/components/Dashboard.tsx:425-434 | a reorder that permutes the links succeeds, keeps the same links, and keeps both totals |

## Left out

- The contract source is not part of this model. The store follows the Clarinet tests, and where they are silent it rests on these assumptions:
  - `create-link` stores the link active and with zero clicks;
  - `increment-click-count` adds exactly one;
  - `update-profile` and `update-link` replace only the supplied fields and leave every other record unchanged;
  - `update-theme` replaces the whole theme, and `update-link-style` the whole style;
  - both id counters hand out 1, 2, 3 and so on, beyond the first id the tests show;
  - a deleted link id is never handed out again.
- JavaScript `number` fields (`borderWidth`, `clickCount`, `order`) and the `Date` fields (`createdAt`, `updatedAt`, as milliseconds) are modelled as `int`. Every value this code produces is an integer: counts start at 0, `order` is `links.length + 1`, and the times are millisecond stamps. NaN, infinities and fractional orders are left out, and so is float rounding of sums beyond 2^53.
- Block-height timestamps are left out, because no test shows them.
- A per-profile link cap is left out, because no test shows one.
- A default theme is left out. The theme stays absent until `update-theme`, because no test shows a default.
- Non-creator increments with `anyCallerMayClick` on are left out: nothing is stated about them. With the flag off, a non-creator's increment is stated to fail with the assumed code 200 and leave the store unchanged.
- LinksContract.IncrementClickCount: states nothing about a non-creator caller when the flag allows it, because the tests never make such a call.
- The not-found codes 101 and 201 are placeholders, because no test shows a not-found response.
- The non-owner code of `update-link-style` and of `increment-click-count` is assumed to be 200, because the tests show that code only for `update-link` and `delete-link`.
- Clarity's string-length and ascii-range limits are left out, because the tests never reach them.
- `uintCV` rejects negative and non-integer numbers. The model types ids and widths as `nat`, so that rejection is out of scope.
- The SDK calls `makeContractCall`, `broadcastTransaction`, `callReadOnlyFunction` and `cvToJSON` are foreign code. Only the argument records handed to them are modelled.
- The builders call SDK functions that `src/lib/stacks.ts` never imports. The model reads them as the SDK functions of those names.
- StacksClient.RecordProfileView and StacksClient.RecordLinkClick: the visitor argument is the hand-written literal `{ type: 'buffer', buffer: visitorHash }` (src/lib/stacks.ts:278 and :309), not a `bufferCV` call. The model assumes the SDK serialises it as the buffer `bufferCV(visitorHash)` would give. In SDK versions where the buffer type tag is a number rather than the string `'buffer'`, serialising it would fail instead. The SDK is not part of this model, so that failure is not stated.
- The sender key, the network and `anchorMode`/`postConditionMode` are left out, because they do not affect the argument lists.
- `setTimeout` delays are left out; only the final state of each hook transform is modelled.
- Ids from `Date.now()` and `new Date()` times are parameters.
- The `Math.random()` view counts and the `console.log` click handler are left out, because they are nondeterministic or output only.
- The `catch` branches of the hooks are left out, because nothing inside their `try` blocks can throw in this code.
- `isLoading` during a hook transform is left out; only the state after it ends is modelled.
- Toasts are modelled only as effect values of `handleCreateProfile`. The toasts of `handleAddLink` and the toast rendering itself are left out.
- Hover state and React rendering markup are left out, apart from the screen choice of `Dashboard`.
- An explicit `undefined` for a required field of a `Partial` update is left out. Such a key can only be absent or carry a value of the field's type.
- `useWallet.ts` is left out: the wallet popup, the balance fetch and its polling, and the microSTX-to-STX division.
- The presentation components and pages are left out.

## Findings

| source | as written | input that shows it | evidently intended | confidence | as-written member | corrected member |
|---|---|---|---|---|---|---|
| src/components/Dashboard.tsx:36-42 | `Dashboard` takes `createProfile` and `checkUsernameAvailability` from `useProfile`, which returns neither (src/hooks/useProfile.ts:86-92), so `handleCreateProfile` throws at the availability check once both required fields are filled | the form username "testuser", display name "Test User", bio and avatar empty | check availability, then create the profile and close the form on success | not executed | Dashboard.AsWrittenNeverCreates | Dashboard.CreateCalledIff |
