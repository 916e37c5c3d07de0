# Domain Navigator screen — Dafny model

The Domain Navigator is a single React screen that lists "domains" (named
entities of type Trust, Knowledge, Tools or Exchange), lets the user create
and edit them, and shows each domain's "particles" (named text values) under
a user-chosen "perspective". The store behind it is a hosted backend reached
through hooks whose code is not part of this model.

This project models the client-side logic of that screen as pure state
transitions `(state, action) -> (state', store calls, notifications)`, with
the store's answer passed in as an `Outcome` (`Succeeded` or `Failed`):

- `wrappers.dfy` — `Option`, standing in for `null`/`undefined`.
- `text.dfy` — `Text`: `trim` over a white-space predicate, and `split`/`join`
  on one separator character, with their round trips.
- `domain_types.dfy` — `DomainTypes`: the four types, their icons, their
  default particle names, and the lookup of a type by name.
- `domains.dfy` — `Domains`: the create payload, the icon recovered from a
  description, what is shown under the selected perspective, and the
  edit-field update of the edit draft.
- `perspectives.dfy` — `Perspectives`: the perspective list with its
  selection and its "New perspective" text box.
- `screen.dfy` — `Screen`: the whole local state, the create and save
  handlers with their store calls and notifications, every user action as an
  event, and the invariant that every reachable state keeps.

Two details of the code shape the model:

- The create handler only checks that the type is non-empty, not that it
  is one of the four types. A non-empty type without a default particle
  table makes building the payload throw inside the handler's `try`. The
  result is an error notification and no store call.
- The icon is recovered by splitting the description on a single space
  character.

The event machine in `Screen.Step` runs the corrected save handler
`Screen.UpdateDomain` described under "## Findings". The handler as written
is modelled separately as `Screen.UpdateDomainAsWritten`.

## Model

| member | source | states |
|---|---|---|
| Text.Trim | src/pages/Index.jsx:64 | the trimmed name is empty exactly when the name is all white space, and is otherwise free of white space at both ends |
| Text.TrimExact | src/pages/Index.jsx:64 | trimming a white-space prefix, a trimmed core and a white-space suffix yields exactly the core |
| Text.TrimIdempotent | src/pages/Index.jsx:64 | trimming is idempotent: trimming an already trimmed string changes nothing |
| Text.Split | src/pages/Index.jsx:235 | `split(' ')` yields at least one piece and no piece contains the separator |
| Text.JoinSplit | src/pages/Index.jsx:235 | joining the pieces of a split gives back the original description |
| Text.SplitJoin | src/pages/Index.jsx:235 | splitting a join of separator-free pieces gives back those pieces |
| DomainTypes.AllTypesComplete | src/pages/Index.jsx:30-35 | the type table lists every domain type |
| DomainTypes.NameInjective | src/pages/Index.jsx:30-35 | no two types share a name |
| DomainTypes.DefaultParticlesDistinct | src/pages/Index.jsx:38-43 | each type has three default particles, all different |
| DomainTypes.FindIn | src/pages/Index.jsx:235 | `find` returns an entry of the table with the requested name, or none when no entry has it |
| DomainTypes.FindType | src/pages/Index.jsx:235 | a found type carries the name looked up; finding none means no type has that name |
| DomainTypes.FindTypeName | src/pages/Index.jsx:30-35 | looking a type up by its own name finds that type |
| Domains.NotConfiguredMap | src/pages/Index.jsx:70-73 | the fold's keys are exactly the listed particle names, each mapped to "Not configured" |
| Domains.BuildPayload | src/pages/Index.jsx:66-75 | the payload carries the trimmed name and the description "A <Type> domain"; its only perspective is "Default"; that perspective holds exactly the type's default particles, each "Not configured" |
| Domains.PayloadParticleCount | src/pages/Index.jsx:66-75 | the Default perspective of a new domain holds exactly three particles |
| Domains.ExchangeExample | src/pages/Index.jsx:66-75 | creating "Acme" of type Exchange sends Default = Payment Processing, Service Listing, Reviews, each "Not configured" |
| Domains.IconFor | src/pages/Index.jsx:235 | the icon is a type's icon exactly when the description's second space-separated token names that type; otherwise it is the globe |
| Domains.SecondToken | src/pages/Index.jsx:235 | a word between the first and the second space is the description's second token |
| Domains.IconRoundTrip | src/pages/Index.jsx:235 | the description written at creation (line 68) yields the icon of the type it was created with |
| Domains.IconUnknownWord | src/pages/Index.jsx:235 | a description whose second word names no type is drawn with the globe |
| Domains.IconSingleWord | src/pages/Index.jsx:235 | a description without a space is drawn with the globe |
| Domains.Shown | src/pages/Index.jsx:249-255 | a domain's particles are listed exactly when it has data under the selected perspective, and are that data |
| Domains.FreshDomainShowsOnlyDefault | src/pages/Index.jsx:249 | a newly created domain shows data only under "Default", all "Not configured" |
| Domains.EditField | src/pages/Index.jsx:275-284 | the selected perspective's particle takes the typed value; the branch is created when missing; every other perspective, particle and draft field is unchanged; with no draft open nothing changes |
| Domains.EditReadBack | src/pages/Index.jsx:274-284 | the input shows the value just typed into it |
| Domains.EditLeavesOthers | src/pages/Index.jsx:274-284 | typing into one input leaves the value of every other input unchanged |
| Domains.EditLastWriteWins | src/pages/Index.jsx:275-284 | two writes to the same input leave the draft as the second write alone would |
| Perspectives.Initial | src/pages/Index.jsx:52-54 | the initial list contains "Default" without duplicates, and the selection "Default" is listed |
| Perspectives.Without | src/pages/Index.jsx:136 | the filtered list holds exactly the other names and keeps "no duplicates" |
| Perspectives.WithoutAbsent | src/pages/Index.jsx:136 | filtering out an unlisted name leaves the list as it was |
| Perspectives.WithoutDeletesAt | src/pages/Index.jsx:136 | in a duplicate-free list, filtering out a name deletes its one position and keeps the order of the rest |
| Perspectives.Add | src/pages/Index.jsx:127-132 | the list changes exactly when the trimmed draft is non-empty and unlisted; it then gains that name at the end and the draft is cleared; the selection never changes; the invariant is kept |
| Perspectives.AddIdempotent | src/pages/Index.jsx:127-132 | a second click on Add changes nothing |
| Perspectives.Remove | src/pages/Index.jsx:134-141 | "Default" is never removed; any other name leaves the list; the selection resets to "Default" exactly when the removed name was selected; the invariant is kept |
| Perspectives.RemoveKeepsOrder | src/pages/Index.jsx:134-141 | removing a name keeps the remaining names in order |
| Perspectives.AddThenRemove | src/pages/Index.jsx:127-141 | adding a perspective and then removing it restores the list and the selection |
| Perspectives.Select | src/pages/Index.jsx:219 | picking a listed perspective selects it and keeps the invariant |
| Perspectives.SetDraft | src/pages/Index.jsx:193 | typing into the new-perspective box changes only the draft text |
| Screen.InitialView | src/pages/Index.jsx:51-55 | the initial state has an empty form, no edit draft, "Default" selected, and satisfies the invariant |
| Screen.AddDomain | src/pages/Index.jsx:63-92 | a blank trimmed name or an empty type does nothing; a filled form whose type has no default particle table gives an error without a store call; a filled form with a known type sends one create call with the built payload, clears the form with a confirmation on success, and keeps the whole state with an error on failure; the perspective state and the edit draft never change |
| Screen.Submit | src/pages/Index.jsx:77-89 | the create call carries the built payload; success clears the form with a confirmation; failure keeps the whole state with an error |
| Screen.AddDomainCallsExactly | src/pages/Index.jsx:63-92 | the store is called at most once, and exactly when the trimmed name is non-empty and the type is known; the state changes exactly when that call succeeds |
| Screen.AddDomainCallsStoreWhenFilled | src/pages/Index.jsx:64-77 | in a reachable state a filled form always reaches the store |
| Screen.CreatePayloadWellFormed | src/pages/Index.jsx:63-77 | every created domain has a non-empty trimmed name and a description from which its type's icon is recovered |
| Screen.UpdateRequest | src/pages/Index.jsx:96 | the update request carries the draft's fields, and the draft's own id overrides the id argument |
| Domains.EditsKeepRecord | src/pages/Index.jsx:275-284 | any sequence of field edits keeps the draft open and keeps its id |
| Screen.SaveTargetsOpenedRecord | src/pages/Index.jsx:96 | after the Edit click (line 259) and any number of field edits, the save (line 290) targets the record the Edit click opened, whatever id the dialog passes |
| Screen.UpdateDomainAsWritten | src/pages/Index.jsx:94-109 | save as written: success with no draft open reports an error |
| Screen.UpdateAsWrittenMisreports | src/pages/Index.jsx:96-100 | with no draft open, a successful store update is reported as a failure |
| Screen.UpdateDomain | src/pages/Index.jsx:94-109 | save sends one update call; success closes the draft with a confirmation; failure keeps the whole state with an error |
| Screen.UpdateAgreesWithDraftOpen | src/pages/Index.jsx:94-109 | with a draft open, the corrected save behaves exactly as written |
| Screen.Step | src/pages/Index.jsx:163-290 | every user action the widgets can produce keeps the invariant; the save action runs the corrected handler |
| Screen.RunPreservesInv | src/pages/Index.jsx:127-141 | any sequence of such actions keeps the invariant |
| Screen.ReachableStatesValid | src/pages/Index.jsx:52-141 | in every reachable state "Default" is listed, no name is listed twice, and the selection is listed |

## Left out

- Rendering, CSS, the dialog, accordion and select widgets, and the text of the toasts. Notifications are modelled by their variant only.
- The store hooks `useDomains`, `useAddDomain`, `useUpdateDomain` and `useDeleteDomain`. Each call is a `StoreCall` value, and its result is an `Outcome` parameter.
- `deleteDomain` (lines 111-125). It changes no local state. It only issues a store call and a notification.
- `async`/`await` ordering and several mutations in flight at once. Each handler is one atomic step that already knows its outcome.
- The loading and error screens (lines 144-145) and the `console.log` calls.
- The stale edit draft left behind when the dialog is dismissed without saving. Dismissal belongs to the dialog widget.
- Domains read from the store whose `perspectives` or `description` is missing. The model's `Domain` always has both.
- Text.Trim: the white-space set is the ASCII white space plus no-break space and byte order mark. It is not JavaScript's full Unicode set.
- Domains.Shown: checks whether the selected name is the domain's own key. The JavaScript lookup at line 249 also finds names inherited from `Object.prototype`. So for a perspective added as `constructor`, `toString` or `__proto__`, the code shows an empty particle list where the model says "No data available". The same quirk is not modelled in the edit handler either.
- Screen.Step: the save action runs the corrected `Screen.UpdateDomain`, not the code as written. So with no draft open, a successful save gives a confirmation here, while the code shows an error (see "## Findings"). The views are the same in both, so the invariant is unaffected.
- Screen.AddDomain: looking up a non-type name in the default particle table is modelled as "no table". In JavaScript, a name such as `constructor` finds an inherited member, but that member has no `reduce` either, so the handler fails the same way.

## Findings

| source | as written | input that shows it | evidently intended | confidence | as-written member | corrected member |
|---|---|---|---|---|---|---|
| src/pages/Index.jsx:94-109 | after a successful update the toast reads `updatedDomain.domain_name`; with no draft open this throws, and the `catch` shows "Failed to update domain" | click "Save Changes" twice in an open dialog: the first success clears the draft while the dialog stays open, so the second click sends `{ id }` with a null draft, the store accepts it, and the screen reports failure | the notification follows the store's answer: a confirmation on success, an error on failure | medium, not executed | Screen.UpdateDomainAsWritten | Screen.UpdateDomain |
