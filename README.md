# User directory store — a Dafny model

This project models the core of a small client-side user directory. The
core is an in-memory user store with a collection of `users`, a `loading`
flag and an `error` message. It has five actions: `fetchUsers`, `addUser`,
`updateUser`, `deleteUser` and `clear`. Beside it sit two service helpers:
`assignRandomAvatar` and the response check of `fetchUsersFromApi`.

Modules, one per source concern:

- `Wrappers` (`wrappers.dfy`): `Option` (optional properties, `null`) and `Result`.
- `Decimal` (`decimal.dfy`): how a template literal prints a non-negative
  integer, and reading that numeral back.
- `Users` (`users.dfy`): the `User` record and the shapes derived from it.
  These are the remote record without avatar (`RawUser`), the creation
  fields without id and avatar (`NewUser`), and the partial update
  (`UserPatch`). It also holds the shallow merge `{ ...user, ...patch }`.
- `UserService` (`user_service.dfy`): the avatar address, `assignRandomAvatar`
  and the `fetchUsersFromApi` decision.
- `UserStore` (`user_store.dfy`): each action's updater as a function on
  `seq<User>`, the `Store` class with the three fields, and the lemmas.
  `fetchUsers` is split into `BeginFetch`, `CompleteFetchOk` and
  `CompleteFetchErr`. `FetchUsers` runs `BeginFetch` and then exactly one
  of `CompleteFetchOk` or `CompleteFetchErr`, chosen by one transport outcome.
- `UserStoreScenarios` (`user_store_scenarios.dfy`): the store's test cases
  replayed on the model.

Inputs that the program draws from the outside world are parameters:

- The result of the network request and of JSON decoding is a `Transport` value.
- Each `Math.random()` draw is the picture number it becomes, an
  `AvatarIndex` from 1 to 70. `DrawToIndex` shows how a draw in [0, 1)
  maps to that number (0.5 gives 36).

Two places where the code does less than the design text says:

- The design says ids are unique at all times. The code does not renumber
  fetched records, so a successful fetch keeps the store's uniqueness only
  when the remote ids are unique. `FetchedWellFormedIff` and
  `Store.CompleteFetchOk` state this exactly.
- The design says the avatar never comes from the caller. The patch type
  of `updateUser` (`Partial<Omit<User, 'id'>>`) does admit `avatar`.
  `UpdateKeepsWellFormed` therefore keeps the avatar invariant only when
  the patch leaves `avatar` out or sets a well-formed one. The user
  interface only ever passes form data, which has no avatar.

The success half of the store's fetch writes only `users` and `loading`
(`src/stores/userStore.ts:42`). `CompleteFetchOk` therefore leaves `error`
as it was. After the whole `FetchUsers`, `error` is absent because
`BeginFetch` cleared it.

## Model

| member | source | states |
|---|---|---|
| `Decimal.NatToString` | src/services/userService.ts:31 | the interpolated numeral `${n}` is a non-empty string of digits with no leading zero; for 0 it is exactly `0` |
| `Decimal.ValueOfNatToString` | src/services/userService.ts:31 | reading back the decimal numeral of an interpolated number gives the number |
| `Decimal.NatToStringInjective` | src/services/userService.ts:21 | distinct numbers are interpolated as distinct strings |
| `Users.Merge` | src/stores/userStore.ts:63 | shallow merge: each property present in the patch overrides, the rest and the id are kept |
| `Users.MergeNoChange` | src/stores/userStore.ts:63 | merging an empty patch gives the user back |
| `Users.MergeCompose` | src/stores/userStore.ts:63 | merging `p` and then `q` equals merging once with the patch where `q`'s present properties win over `p`'s |
| `Users.MergeIsNoOpIff` | src/stores/userStore.ts:63 | a merge leaves the user unchanged exactly when every property the patch sets already holds the user's value |
| `UserService.DrawToIndex` | src/services/userService.ts:28 | `floor(r*70)+1` for a draw r in [0,1) lies in 1..70 and is the n with n-1 <= 70r < n |
| `UserService.AvatarUrl` | src/services/userService.ts:31 | the avatar address starts with `https://i.pravatar.cc/150?img=` and is longer than it |
| `UserService.AvatarUrlWellFormed` | src/services/userService.ts:28-31 | every built address is non-empty and well formed, and names exactly the picture it was built from |
| `UserService.AssignRandomAvatar` | src/services/userService.ts:27-33 | removing the avatar from the result gives the input record back; the avatar is the address of the draw |
| `UserService.AssignRandomAvatarSpec` | src/services/userService.ts:29-32 | all fields but `avatar` are copied and the avatar is a non-empty well-formed address naming the draw |
| `UserService.HttpErrorMessage` | src/services/userService.ts:21 | the message starts with `HTTP ` and the rest is the shortest numeral of the status: all digits, no leading zero (exactly `HTTP 0` for status 0), value the status |
| `UserService.HttpErrorMessageInjective` | src/services/userService.ts:21 | the error message determines the status |
| `UserService.FetchUsersFromApi` | src/services/userService.ts:15-25 | success exactly when the transport delivered an ok response with a decodable body, and then the decoded records unchanged; `HTTP {status}` when not ok; the transport's or decoder's message otherwise |
| `UserStore.MaxId` | src/stores/userStore.ts:51 | at least 0 and at least every id, and either 0 or the id of some user |
| `UserStore.CreatedUser` | src/stores/userStore.ts:50-57 | the new id is 1 in an empty store, above every existing id, not yet present and one above the largest id; fields are the caller's; the avatar is a well-formed address naming the draw |
| `UserStore.AddKeepsWellFormed` | src/stores/userStore.ts:51-58 | appending the created user keeps ids unique and avatars well formed |
| `UserStore.AddTwiceConsecutiveIds` | src/stores/userStore.ts:49-59 | two additions in a row get consecutive ids |
| `UserStore.UpdatedUsers` | src/stores/userStore.ts:61-64 | same length; each element with the id becomes its merge with the patch and every other element is unchanged |
| `UserStore.UpdateMissingIsNoOp` | src/stores/userStore.ts:63 | updating an absent id leaves the collection equal to what it was |
| `UserStore.UpdateCompose` | src/stores/userStore.ts:61-64 | two updates of one id equal one update with the composed patch |
| `UserStore.UpdateKeepsWellFormed` | src/stores/userStore.ts:61-64 | an update keeps ids unique, and keeps avatars well formed unless the patch writes a foreign avatar |
| `UserStore.DeletedUsers` | src/stores/userStore.ts:65-68 | a user is in the result exactly when it was in the collection and has a different id; never longer |
| `UserStore.DeleteConcat` | src/stores/userStore.ts:67 | deleting distributes over concatenation, so the survivors keep their relative order |
| `UserStore.DeleteMissingIsNoOp` | src/stores/userStore.ts:67 | deleting an absent id leaves the collection equal to what it was |
| `UserStore.DeleteOneOfUnique` | src/stores/userStore.ts:65-68 | with unique ids, deleting the id at position k yields the collection without exactly that element |
| `UserStore.DeleteKeepsWellFormed` | src/stores/userStore.ts:65-68 | deleting keeps ids unique and avatars well formed |
| `UserStore.WithAvatars` | src/stores/userStore.ts:38-41 | one user per fetched record, in order: removing its avatar gives the record back and the avatar is the address of that record's draw |
| `UserStore.WithAvatarsSpec` | src/stores/userStore.ts:38-41 | the enriched list has the fetched records in order, each with a well-formed avatar naming its own draw |
| `UserStore.FetchedWellFormedIff` | src/stores/userStore.ts:37-42 | the committed collection is well formed if and only if the remote ids are unique |
| `UserStore.AttachAvatars` | src/stores/userStore.ts:38-41 | the loop gives each record in turn the avatar of its draw, which equals `assignRandomAvatar` applied to each |
| `UserStore.Store.constructor` | src/stores/userStore.ts:28-31 | the store starts with no users, not loading and no error |
| `UserStore.Store.Clear` | src/stores/userStore.ts:48 | from any state: no users, not loading, no error |
| `UserStore.Store.AddUser` | src/stores/userStore.ts:49-60 | appends exactly the created user after the unchanged old users; `loading` and `error` unchanged; well-formedness kept |
| `UserStore.Store.UpdateUser` | src/stores/userStore.ts:61-64 | the collection becomes the updated one; `loading` and `error` unchanged; well-formedness kept for an avatar-free patch |
| `UserStore.Store.DeleteUser` | src/stores/userStore.ts:65-68 | the collection becomes the filtered one; `loading` and `error` unchanged; well-formedness kept |
| `UserStore.Store.BeginFetch` | src/stores/userStore.ts:33 | loading, no error, users unchanged |
| `UserStore.Store.CompleteFetchOk` | src/stores/userStore.ts:38-42 | users become the enriched records, loading stops, error untouched; well formed exactly when the remote ids are unique |
| `UserStore.Store.CompleteFetchErr` | src/stores/userStore.ts:43-46 | no users, not loading, the error message recorded |
| `UserStore.Store.FetchUsers` | src/stores/userStore.ts:32-47 | the store's inline fetch ends not loading and agrees with `fetchUsersFromApi` followed by `assignRandomAvatar` on each record: on success the enriched records and no error, on failure no users and the service's error message |
| `UserStoreScenarios.HalfDrawIsPicture36` | src/stores/userStore.test.ts:91-103 | a draw of 0.5 selects picture 36, address `https://i.pravatar.cc/150?img=36` |
| `UserStoreScenarios.AddsUserAndIncrementsId` | src/stores/userStore.test.ts:32-49 | adding Charlie to a cleared store creates id 1 with Charlie's fields and an avatar address |
| `UserStoreScenarios.UpdatesExistingUser` | src/stores/userStore.test.ts:51-62 | updating user 1's email replaces it |
| `UserStoreScenarios.DeletesUserById` | src/stores/userStore.test.ts:64-82 | deleting user 1 of Eve and Frank leaves only Frank |
| `UserStoreScenarios.FetchesUsersAndAssignsAvatars` | src/stores/userStore.test.ts:84-104 | fetching Alice and Bob with draws 0.5 yields two users with picture 36, not loading, no error |
| `UserStoreScenarios.HandlesFetchErrors` | src/stores/userStore.test.ts:106-119 | a non-ok response with status 500 yields no users, not loading, error `HTTP 500` |
| `UserStoreScenarios.ClearIsIdempotent` | src/stores/userStore.ts:48 | clearing twice gives the same state as clearing once |

## Left out

- The network request, `response.json()` and the endpoint address from the environment are not modelled. Their outcome is the `Transport` input of `FetchUsersFromApi` and `Store.FetchUsers`.
- Floating-point randomness is not modelled. A `Math.random()` draw is the picture number it yields; `DrawToIndex` computes that number on exact reals.
- A thrown value that is not an `Error` (`String(err)`) is not distinguished. Every failure reaches the store as its message string.
- The zustand plumbing is left out: `create`, `set`, subscriptions and the process-wide singleton. An action is a method on one `Store` object.
- Overlapping fetches are left out. Each completion is one atomic step, and the last-write-wins race between in-flight fetches is concurrency.
- The in-place `user.avatar = …` on the decoded objects is modelled by building a new sequence. The decoded objects are fresh and nothing else refers to them.
- Ids and statuses are mathematical integers. JavaScript's float numbers, precision above 2^53, non-integral or NaN ids, exponent notation of very large numbers, and the argument-count limit of `Math.max(...ids)` are not modelled.
- HTTP statuses are non-negative (`nat`), as a fetch response's status always is.
- A patch carrying an explicit `undefined` for a required field (`name`, `username`, `email`, `avatar`) is not modelled, because the result would not be a `User`. For optional fields `Set(None)` models it.
- `address` and `company` are string-to-string maps that are only carried along. Their real contents are arbitrary JSON.
- The React presentation layer is not part of this model: the user list page, the user form and its validation, the error boundary, the not-found page and routing.
