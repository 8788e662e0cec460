# Multi-tenant SaaS front end and CNPJ proxy, modelled in Dafny

This project models the core of a multi-tenant SaaS application: a React
front end backed by Supabase, plus a small Express server that proxies
CNPJ lookups to a public registry. The model covers:

- **Tenant resolver.** The cached tenant id, its "initializing" flag, the
  persisted `tenant_id` entry and the `x-tenant-id` header.
- **Auth provider.** How the application user is built from the identity
  user, its metadata and the profile row, and which operations report
  errors as data and which throw.
- **Services.**
  - Chat: room creation, messages, and the one realtime channel per service.
  - Notifications: the one-way `read` flag, a `findAll` that never fails,
    and fixed error messages.
  - Users: contacts filtered and stably sorted by display order, and the
    writes made by `create` and `update`.
  - CNPJ lookup client.
- **Zustand stores.** Chat, notifications, users and SaaS licenses. They are
  classes whose methods update their fields. Each asynchronous action is one
  step to its settled state, given the settled service response.
- **Forms.**
  - New tenant, tenant self-registration (two steps), license, and user
    (create and edit).
  - Their error maps are specified by a map comprehension over a `Field`
    datatype. The imperative check methods are proved to compute exactly
    that map.
  - The shared CPF/CNPJ mask is modelled as the leftmost-match semantics of
    each `replace`. The tenant slug is proved well formed and idempotent.
- **Search boxes.** The chat, user and permission pages filter with
  `toLowerCase().includes(...)`.
- **CNPJ route** of the Express server.

How outside calls are handled:

- **Backend and network calls are parameters.** Every Supabase, HTTP or
  realtime call is given as its settled outcome: `Result`, `Rows`, or an
  `Option` of the thrown value.
- **Thrown values.** A thrown value is either an `Error` with a message or
  anything else (`Basics.Thrown`). That distinction is the only one the code
  makes.
- **Channels and disposers.** The realtime transport is a slot with the
  channels opened and unsubscribed so far (`Realtime.Slot`). A disposer is a
  value that records which channel it was made for but, like the code,
  ignores that when called.
- **Shared helpers.** Strings are `seq<char>`. `Text` holds JavaScript's
  whitespace set, `trim`, ASCII `toLowerCase`, `includes` and
  `replace(/\D/g, '')`. `Lists` holds `filter` and `map`.

## Model

| member | source | states |
|---|---|---|
| Basics.MessageOr | src/store/chat.ts:35 | the message of a thrown `Error`, otherwise the fallback |
| Basics.RaiseError | src/services/auth/supabase-auth.ts:109-122 | the call throws exactly when the backend returns an error, and throws that error |
| Basics.ReplaceError | src/services/api/notifications.ts:101-111 | success passes through; every failure becomes one fixed message |
| Basics.RowsOrEmpty | src/services/api/chat.ts:63-71 | throws iff the response has an error, and throws that error; `null` data is `[]` |
| Realtime.Subscribe | src/services/api/chat.ts:107-126 | installs a fresh channel with the topic and filter, unsubscribes the previous one, preserves no-leak |
| Realtime.Dispose | src/services/api/chat.ts:128-133 | empties the slot, unsubscribes what it held, preserves no-leak |
| Realtime.DisposeTwice | src/services/api/chat.ts:128-133 | a second disposer call changes nothing |
| Realtime.StaleDisposerClosesNewChannel | src/services/api/chat.ts:128-133 | a disposer kept from an earlier subscription closes the newer channel |
| Realtime.SubscribeAfterDispose | src/services/api/chat.ts:108-110 | disposing before subscribing makes no difference |
| Realtime.RunNoLeak | src/services/api/chat.ts:107-134 | over any sequence of subscriptions and disposals: no leak, no double unsubscribe, one serial per subscription |
| TenantResolver.Begin | src/services/tenant.ts:17-36 | wait iff initializing; the cache, then storage, answer when truthy; a lookup is issued iff neither is and no lookup is in flight; agreement kept |
| TenantResolver.NoTenant | src/services/tenant.ts:71-75 | caches and persists the demo id and returns it |
| TenantResolver.Complete | src/services/tenant.ts:37-68 | a found row's id, else the demo id, is cached and persisted; the flag is cleared on every path |
| TenantResolver.SetCurrent | src/services/tenant.ts:77-86 | cache and storage hold the id; the tenant header is set; the other headers are kept |
| TenantResolver.SetThenGet | src/services/tenant.ts:24-26 | after setting a non-empty id, the next call answers it from the cache |
| TenantResolver.SetEmptyThenGet | src/services/tenant.ts:24-37 | after setting `''`, the next call goes remote |
| TenantResolver.CompleteThenRetry | src/services/tenant.ts:58-68 | a caller retrying after the lookup settled gets the same id from the cache |
| TenantResolver.BurstQuiet | src/services/tenant.ts:19-26 | with a lookup in flight or an id cached, no call in a burst goes remote, and all answer the cached id |
| TenantResolver.BurstIssuesAtMostOneLookup | src/services/tenant.ts:17-28 | overlapping calls issue at most one lookup (none if one is in flight), and all answers agree |
| TenantResolver.Resolver.constructor | src/services/tenant.ts:3-4 | nothing cached, not initializing |
| TenantResolver.Resolver.BeginGetTenantId | src/services/tenant.ts:17-36 | the object's state moves as `Begin` says |
| TenantResolver.Resolver.HandleNoTenant | src/services/tenant.ts:71-75 | the object's state moves as `NoTenant` says |
| TenantResolver.Resolver.CompleteLookup | src/services/tenant.ts:37-68 | the object's state moves as `Complete` says |
| TenantResolver.Resolver.SetCurrentTenant | src/services/tenant.ts:77-86 | the object's state moves as `SetCurrent` says |
| SupabaseAuth.MapUser | src/services/auth/supabase-auth.ts:155-164 | the name is the profile's, else the metadata's, else "Usuário", and never empty; role, tenant and email defaults |
| SupabaseAuth.SignInResult | src/services/auth/supabase-auth.ts:6-41 | error iff the auth fails or the profile fetch throws; a user iff authenticated and the fetch did not throw, with the session as the backend returned it; the tenant to set iff the profile names one |
| SupabaseAuth.SignIn | src/services/auth/supabase-auth.ts:6-41 | returns that response; the resolver changes only through `setCurrentTenant` of the profile's tenant |
| SupabaseAuth.SignUpDefaultUser | src/services/auth/supabase-auth.ts:74-85 | the synthesized user: role `user`, the demo tenant, the given name or "Usuário" |
| SupabaseAuth.SignUpResult | src/services/auth/supabase-auth.ts:43-107 | error iff sign-up fails; a created account always yields a user, mapped from its profile or synthesized, with the session as the backend returned it (none while e-mail confirmation is pending) |
| SupabaseAuth.GetUserResult | src/services/auth/supabase-auth.ts:124-153 | a user iff there is a session user; synthesized when only the profile fetch throws |
| SupabaseAuth.SignInSignUpAgreeWithoutProfile | src/services/auth/supabase-auth.ts:63-73 | without a profile row, sign-in and sign-up return the same response |
| ChatApi.ParticipantRows | src/services/api/chat.ts:49-52 | one participant row per user, in order |
| ChatApi.CreateRoom | src/services/api/chat.ts:33-61 | the room row carries the tenant; participants are written iff the room insert succeeded; the first error is thrown |
| ChatApi.GetMessages | src/services/api/chat.ts:74-84 | limit 50 by default; throws iff the query fails |
| ChatApi.SendMessageStep | src/services/api/chat.ts:86-104 | no insert without a user, and "Usuário não autenticado" is thrown; otherwise inserts that user's row |
| ChatApi.ChatAPI.constructor | src/services/api/chat.ts:30 | empty slot, no inserts |
| ChatApi.ChatAPI.SubscribeToMessages | src/services/api/chat.ts:107-134 | the slot moves as `Realtime.Subscribe` on the room's topic and filter |
| ChatApi.ChatAPI.Dispose | src/services/api/chat.ts:128-133 | the slot moves as `Realtime.Dispose` |
| ChatApi.ChatAPI.SendMessage | src/services/api/chat.ts:86-104 | result and inserted rows as `SendMessageStep` |
| ChatApi.StaleDisposerScenario | src/services/api/chat.ts:107-134 | through the object, a stale disposer unsubscribes the second room's channel |
| ChatStore.PrependMessage | src/store/chat.ts:76-80 | the message goes in front of its room's list; other rooms are untouched |
| ChatStore.SentMessageEchoedTwice | src/store/chat.ts:70-98 | a sent message that also arrives on the channel is listed twice |
| ChatStore.ChatStore.constructor | src/store/chat.ts:21-27 | the initial store |
| ChatStore.ChatStore.FetchRooms | src/store/chat.ts:29-40 | rooms replaced on success; error message on failure; not loading after |
| ChatStore.ChatStore.FetchMessages | src/store/chat.ts:52-68 | only that room's entry changes on success; error message on failure |
| ChatStore.ChatStore.SendMessage | src/store/chat.ts:70-86 | nothing without an open room; prepend on success; error on failure; never throws |
| ChatStore.ChatStore.ReceiveMessage | src/store/chat.ts:91-98 | the arriving message is prepended to its room |
| ChatStore.ChatStore.UnsubscribeFromMessages | src/store/chat.ts:103-109 | calls the stored disposer once and forgets it |
| ChatStore.ChatStore.SubscribeToMessages | src/store/chat.ts:88-101 | disposes, then subscribes to the room; the store's disposer matches the channel |
| ChatStore.ChatStore.SetActiveRoom | src/store/chat.ts:42-50 | opening fetches and subscribes; closing unsubscribes |
| NotificationsApi.NewRow | src/services/api/notifications.ts:56-62 | the inserted row copies the request and is unread |
| NotificationsApi.FindAll | src/services/api/notifications.ts:74-99 | the user's rows, or `[]` on no user, on any failure, or on no data; never throws |
| NotificationsApi.NotificationAPI.constructor | src/services/api/notifications.ts:22 | empty slot, no writes |
| NotificationsApi.NotificationAPI.SubscribeToNotifications | src/services/api/notifications.ts:24-51 | the slot moves as `Realtime.Subscribe` on the user's filter |
| NotificationsApi.NotificationAPI.Dispose | src/services/api/notifications.ts:45-50 | the slot moves as `Realtime.Dispose` |
| NotificationsApi.NotificationAPI.Create | src/services/api/notifications.ts:53-72 | inserts the unread row; any failure becomes the fixed message |
| NotificationsApi.NotificationAPI.MarkAsRead | src/services/api/notifications.ts:101-111 | sends `read: true`; any failure becomes the fixed message; no write ever marks unread |
| NotificationsApi.NotificationAPI.Delete | src/services/api/notifications.ts:113-123 | sends the delete; any failure becomes the fixed message |
| NotificationsStore.Unread | src/store/notifications.ts:53 | the unread count never exceeds the list |
| NotificationsStore.MarkRead | src/store/notifications.ts:68-70 | entries with the id become read; the others are unchanged |
| NotificationsStore.Remove | src/store/notifications.ts:82 | exactly the entries with another id, in order, each with as many copies as before |
| NotificationsStore.MarkReadUnread | src/store/notifications.ts:65-72 | after marking, the unread entries are those unread with another id; the count does not grow |
| NotificationsStore.UnreadPrepend | src/store/notifications.ts:40-45 | an arrival adds one to the true count iff it is unread |
| NotificationsStore.NotificationStore.constructor | src/store/notifications.ts:18-23 | the initial store, with an exact count |
| NotificationsStore.NotificationStore.SubscribeToRealtime | src/store/notifications.ts:25-30 | subscribes through the service; the old disposer is overwritten uncalled |
| NotificationsStore.NotificationStore.UnsubscribeFromRealtime | src/store/notifications.ts:32-38 | calls the stored disposer once and forgets it |
| NotificationsStore.NotificationStore.AddNotification | src/store/notifications.ts:40-45 | prepends and adds one; the count stays exact iff the arrival is unread |
| NotificationsStore.NotificationStore.FetchNotifications | src/store/notifications.ts:47-63 | list from `findAll`, exact count, no error |
| NotificationsStore.NotificationStore.MarkAsRead | src/store/notifications.ts:65-77 | marks and recounts on success; the service's message on failure |
| NotificationsStore.NotificationStore.DeleteNotification | src/store/notifications.ts:79-89 | removes and recounts on success; the service's message on failure |
| UsersApi.SortByOrder | src/services/api/users.ts:68 | sorted by `display_order \|\| 0`, a permutation |
| UsersApi.SortStable | src/services/api/users.ts:68 | contacts with equal order keep their relative order |
| UsersApi.PrepareContacts | src/services/api/users.ts:64-69 | exactly the visible contacts, sorted; `[]` when absent |
| UsersApi.FindAll | src/services/api/users.ts:41-72 | a fixed message on failure; `[]` for no data; every user's contacts prepared |
| UsersApi.ContactRows | src/services/api/users.ts:118-124 | one contact row per input, owned by the new user under the tenant |
| UsersApi.Create | src/services/api/users.ts:74-145 | succeeds iff sign-up created a user and the profile was fetched; contact and notification failures are ignored |
| UsersApi.Update | src/services/api/users.ts:147-194 | the profile update iff the profile exists; contacts sent iff non-empty; every failure is one message |
| UsersStore.ReplaceById | src/store/users.ts:49 | entries with the id become the user; the others stay in place |
| UsersStore.ReplaceByIdKeepsIds | src/store/users.ts:45-51 | replacing with a user of that id keeps the order of ids |
| UsersStore.ReplaceAbsentId | src/store/users.ts:49 | an absent id changes nothing |
| UsersStore.UserStore.constructor | src/store/users.ts:13-16 | the initial store |
| UsersStore.UserStore.FetchUsers | src/store/users.ts:18-29 | the list on success; the previous list and the message on failure |
| UsersStore.UserStore.CreateUser | src/store/users.ts:31-43 | prepends on success; on failure records the message and rethrows |
| UsersStore.UserStore.UpdateUser | src/store/users.ts:45-57 | replaces by id on success; on failure records the message and rethrows |
| SaasStore.ReplaceLicense | src/store/saas.ts:45 | entries with the license's id become it; the others stay |
| SaasStore.ReplaceLicenseIdempotent | src/store/saas.ts:43-47 | updating twice is updating once |
| SaasStore.SaasStore.constructor | src/store/saas.ts:17-21 | the initial store |
| SaasStore.SaasStore.FetchLicenses | src/store/saas.ts:23-35 | the list (or `[]`) on success; emptied with the message on failure |
| SaasStore.SaasStore.AddLicense | src/store/saas.ts:37-41 | prepends |
| SaasStore.SaasStore.UpdateLicense | src/store/saas.ts:43-47 | replaces by id |
| SaasStore.SaasStore.SetActiveLicense | src/store/saas.ts:49 | sets the active license only |
| SaasStore.SaasStore.SetError | src/store/saas.ts:50 | sets the error only |
| PersonApi.RequestPath | src/services/api/person.ts:24-29 | the path carries only digits |
| PersonApi.ConsultarCnpj | src/services/api/person.ts:23-48 | data on success; the 404, server and other failures become their messages |
| PersonApi.PathIgnoresFormatting | src/services/api/person.ts:24 | formatted and bare input request the same path |
| PersonRoute.Route | server/src/routes/person.ts:6-41 | 400 for an empty or non-14-digit param, with no registry call; otherwise 200/404/504/500 by outcome |
| PersonRoute.FormattedParamForwardedRaw | server/src/routes/person.ts:14-18 | a formatted CNPJ passes and is forwarded with its separators |
| PersonRoute.ShortParamNoUpstream | server/src/routes/person.ts:10-16 | fewer than 14 digits: 400 and no registry call |
| Documents.DocumentError | src/pages/saas/NewTenantForm.tsx:105-113 | no error iff empty or the type's digit count; the type's message |
| Documents.FullMaskPasses | src/pages/saas/NewTenantForm.tsx:105-113 | a complete mask passes the check |
| Documents.SeparateFirstRun | src/pages/saas/NewTenantForm.tsx:317-318 | the separator step keeps the digits |
| Documents.HyphenateEnd | src/pages/saas/NewTenantForm.tsx:319 | the hyphen step keeps the digits |
| Documents.Mask | src/pages/saas/NewTenantForm.tsx:314-329 | the mask keeps the digits |
| Documents.MaskKeepsDigits | src/pages/saas/NewTenantForm.tsx:312-329 | the digits of the mask are the typed digits |
| Documents.OnDocumentInput | src/pages/saas/NewTenantForm.tsx:310-331 | masks the typed digits up to the type's length; beyond it the field is unchanged |
| Documents.TypeOneDigit | src/pages/saas/NewTenantForm.tsx:310-331 | typing a digit into a masked field gives the mask of the longer digit string, up to the limit |
| Documents.CnpjMaskFull | src/pages/saas/NewTenantForm.tsx:324-328 | 14 digits are shown as `dd.ddd.ddd/dddd-dd` |
| Documents.CpfMaskFull | src/pages/saas/NewTenantForm.tsx:316-319 | 11 digits are shown as `ddd.ddd.ddd-dd` |
| Slug.CollapseRuns | src/pages/saas/NewTenantForm.tsx:85 | output is in the slug alphabet, has no `--`, and is empty iff the input is |
| Slug.GenerateSlugKeepsAlnum | src/pages/saas/NewTenantForm.tsx:82-87 | the slug keeps exactly the letters and digits of the lower-cased name, in order |
| Slug.GenerateSlugIsSlug | src/pages/saas/NewTenantForm.tsx:82-87 | every slug is well formed |
| Slug.SlugIsFixedPoint | src/pages/saas/NewTenantForm.tsx:82-87 | a well-formed slug maps to itself |
| Slug.GenerateSlugIdempotent | src/pages/saas/NewTenantForm.tsx:82-87 | generating twice is generating once |
| LicenseForm.ValidateDocument | src/pages/saas/LicenseForm.tsx:62-70 | an empty document passes; otherwise 11 or 14 digits by type |
| LicenseForm.ValidateDomain | src/pages/saas/LicenseForm.tsx:72-75 | accepts iff the domain splits into the pattern's label, dot and letters |
| LicenseForm.ValidDomainOneDot | src/pages/saas/LicenseForm.tsx:72-75 | an accepted domain has one dot |
| LicenseForm.TwoDotsRejected | src/pages/saas/LicenseForm.tsx:72-75 | two dots are rejected |
| LicenseForm.PlaceholderRejected | src/pages/saas/LicenseForm.tsx:291 | the field's own example `empresa.com.br` is rejected |
| LicenseForm.SingleDotAccepted | src/pages/saas/LicenseForm.tsx:72-75 | `empresa.com` is accepted |
| LicenseForm.FormErrorsEmpty | src/pages/saas/LicenseForm.tsx:77-109 | the error map is empty iff the form is valid |
| LicenseForm.ValidateForm | src/pages/saas/LicenseForm.tsx:77-109 | each key is present iff its check fails, with its message, so the map is exactly `FormErrors`; ok iff no errors iff the form is valid |
| LicenseForm.DocumentNotValidated | src/pages/saas/LicenseForm.tsx:77-109 | the document does not affect validity |
| LicenseForm.Clean | src/pages/saas/LicenseForm.tsx:120-129 | trimmed names, digits-only document, type only with a document, no empty expiry |
| LicenseForm.MaskedDocumentSentAsTyped | src/pages/saas/LicenseForm.tsx:124-125 | a masked document is sent as the typed digits |
| LicenseForm.HandleSubmit | src/pages/saas/LicenseForm.tsx:111-143 | an invalid form shows exactly `validateForm`'s errors and sends nothing; otherwise sends the cleaned request, closes iff it succeeds, and shows the fixed message on failure |
| LicenseForm.ToggleModule | src/pages/saas/LicenseForm.tsx:396-398 | appends an unchosen module; removes every copy of a chosen one, keeping the others in order |
| LicenseForm.ClearShown | src/pages/saas/LicenseForm.tsx:252-254 | a shown error of the edited field is blanked, so it is no longer shown; other entries stay |
| LicenseForm.ChangeName | src/pages/saas/LicenseForm.tsx:249-255 | sets the name; its error is no longer shown |
| LicenseForm.ChangeDomain | src/pages/saas/LicenseForm.tsx:280-286 | sets the domain; its error is no longer shown |
| LicenseForm.ChangeCompanyName | src/pages/saas/LicenseForm.tsx:311-317 | sets the company name; its error is no longer shown |
| LicenseForm.ChangeExpiresAt | src/pages/saas/LicenseForm.tsx:342-347 | sets the expiry; the error it blanks is never set by validation |
| LicenseForm.ModuleChecked | src/pages/saas/LicenseForm.tsx:395-406 | toggles the module; the modules error is no longer shown |
| LicenseForm.ToggleTwice | src/pages/saas/LicenseForm.tsx:396-398 | toggling a new module twice restores the choice |
| LicenseForm.ChangeDocumentType | src/pages/saas/LicenseForm.tsx:186-194 | sets the type, clears the document and its error, keeps the other errors |
| LicenseForm.HandleDocumentChange | src/pages/saas/LicenseForm.tsx:29-51 | the shared mask for the current type; too many digits change nothing |
| NewTenantForm.FormErrorsEmpty | src/pages/saas/NewTenantForm.tsx:89-136 | the error map is empty iff the form is valid |
| NewTenantForm.CheckCompany | src/pages/saas/NewTenantForm.tsx:93-113 | exactly the failing tenant and company fields, with their messages |
| NewTenantForm.CheckAdmin | src/pages/saas/NewTenantForm.tsx:116-132 | exactly the failing administrator fields, with their messages |
| NewTenantForm.ValidateForm | src/pages/saas/NewTenantForm.tsx:89-136 | the full error map; ok iff the form is valid |
| NewTenantForm.BuildRequest | src/pages/saas/NewTenantForm.tsx:150-182 | slug given or generated (then well formed), `saas` by default, 5 users and 1024 storage, admin name and email fallbacks |
| NewTenantForm.ValidFormHasNameAndEmail | src/pages/saas/NewTenantForm.tsx:141 | a valid form always has a name and a company e-mail |
| NewTenantForm.HandleSubmit | src/pages/saas/NewTenantForm.tsx:138-197 | sends the request iff valid; otherwise the errors plus the generic message; a failure's message under `submit` |
| NewTenantForm.ChangeName | src/pages/saas/NewTenantForm.tsx:236-243 | the name and its generated, well-formed slug |
| NewTenantForm.SetModuleChecked | src/pages/saas/NewTenantForm.tsx:413-415 | checking appends; unchecking removes every copy, keeping the others in order |
| NewTenantForm.CheckThenUncheck | src/pages/saas/NewTenantForm.tsx:413-415 | checking then unchecking a new module restores the choice |
| TenantRegistration.StepErrorsEmpty | src/pages/auth/TenantRegistration.tsx:40-72 | a step's error map is empty iff the step is valid |
| TenantRegistration.CheckTenant | src/pages/auth/TenantRegistration.tsx:42-55 | exactly the failing company fields, with their messages |
| TenantRegistration.CheckUser | src/pages/auth/TenantRegistration.tsx:56-69 | exactly the failing administrator fields, with their messages |
| TenantRegistration.ValidateStep | src/pages/auth/TenantRegistration.tsx:40-72 | the step's error map; ok iff the step is valid |
| TenantRegistration.BuildRequest | src/pages/auth/TenantRegistration.tsx:110-137 | the slug is the company name's (well formed); `financeiro`, 5 users; the admin fields as typed |
| TenantRegistration.Extracted | src/pages/auth/TenantRegistration.tsx:141-152 | non-Error: generic; unparsable or `null` JSON: raw message; JSON: its message, else generic |
| TenantRegistration.OwnTextsNotDuplicate | src/pages/auth/TenantRegistration.tsx:155-158 | the replacement and generic texts contain no "Já existe um registro" |
| TenantRegistration.SubmitErrorText | src/pages/auth/TenantRegistration.tsx:140-162 | "in use" texts kept; duplicate texts replaced; a shown duplicate text is always an "in use" one; empty only from an empty raw message |
| TenantRegistration.Registration.constructor | src/pages/auth/TenantRegistration.tsx:32-38 | first step, initial form, nothing sent |
| TenantRegistration.Registration.HandleNext | src/pages/auth/TenantRegistration.tsx:74-77 | shows the step's errors; advances iff the step is valid |
| TenantRegistration.Registration.HandleBack | src/pages/auth/TenantRegistration.tsx:79-81 | back to the first step, nothing else changes |
| TenantRegistration.Registration.ChangeCompanyName | src/pages/auth/TenantRegistration.tsx:294-299 | sets the company name |
| TenantRegistration.Registration.ChangeDocumentType | src/pages/auth/TenantRegistration.tsx:209-217 | sets the type and clears the document, which then passes |
| TenantRegistration.Registration.ChangeDocument | src/pages/auth/TenantRegistration.tsx:226-248 | the shared mask for the current type |
| TenantRegistration.Registration.ChangeAdmin | src/pages/auth/TenantRegistration.tsx:317-415 | sets the administrator fields |
| TenantRegistration.Registration.HandleSubmit | src/pages/auth/TenantRegistration.tsx:103-166 | validates the current step; sends iff valid; navigates to `/login` on success, else shows the mapped error; a send from the user step has both steps valid |
| UserForm.IsEmailMatches | src/components/users/UserForm.tsx:39 | the scanner accepts iff the string matches `^[^\s@]+@[^\s@]+\.[^\s@]+$` |
| UserForm.BlankIsNoEmail | src/components/users/UserForm.tsx:37-41 | a blank e-mail never matches the pattern |
| UserForm.InitialForm | src/components/users/UserForm.tsx:16-23 | the user's fields and contacts, or the empty form; e-mail as contact by default |
| UserForm.FormErrorsEmpty | src/components/users/UserForm.tsx:30-51 | the error map is empty iff the form is valid |
| UserForm.ValidateForm | src/components/users/UserForm.tsx:30-51 | the error map (e-mail and password only when creating); ok iff valid |
| UserForm.EditContacts | src/components/users/UserForm.tsx:62-76 | no `user` contacts; every other contact kept in order, with as many copies as before; the account e-mail appended when asked |
| UserForm.EditRepeatsEmail | src/components/users/UserForm.tsx:60-81 | saving again adds one more copy of the e-mail contact |
| UserForm.CreateContacts | src/components/users/UserForm.tsx:84-89 | just the e-mail contact when asked, else none |
| UserForm.SubmitRequest | src/components/users/UserForm.tsx:60-97 | an update for an existing user, a create otherwise, with the form's fields |
| UserForm.HandleSubmit | src/components/users/UserForm.tsx:53-109 | sends iff valid; closes iff it succeeds; the fixed message under `submit` on failure |
| UserForm.AddContact | src/components/users/UserForm.tsx:111-123 | a blank draft changes nothing; otherwise appends it and resets the draft |
| UserForm.RemoveContactAt | src/components/users/UserForm.tsx:125-130 | removes exactly the indexed contact; an out-of-range index changes nothing |
| UserForm.AddThenRemove | src/components/users/UserForm.tsx:111-130 | removing the last contact after adding restores the list |
| Search.NarrowingQuery | src/pages/Chat.tsx:37-39 | extending the query can only turn a match into a non-match |
| Search.QueryCase | src/pages/Chat.tsx:37-39 | the query's case does not matter |
| Search.TextCase | src/pages/Chat.tsx:37-39 | the text's case does not matter |
| ChatPage.FilterRooms | src/pages/Chat.tsx:35-40 | all rooms for an empty query; otherwise a subsequence, a room kept iff its name matches |
| ChatPage.NarrowingSearch | src/pages/Chat.tsx:35-40 | typing more only drops rooms |
| ChatPage.ActiveRoomMessages | src/pages/Chat.tsx:62 | the open room's cached list; `[]` without a room or cache entry |
| ChatPage.HandleSendMessage | src/pages/Chat.tsx:42-52 | blank input sends nothing and stays; otherwise sends through the store and the box is cleared, even when the send failed; loading flag, disposer, channel slot and the store invariant are kept, and `error` too on success |
| UserManagement.FilterUsers | src/pages/users/UserManagement.tsx:18-25 | all users for an empty query; otherwise a subsequence, a user kept iff name or e-mail matches |
| UserManagement.NamelessFoundByEmail | src/pages/users/UserManagement.tsx:20-23 | a user without a name is found by e-mail |
| UserManagement.NamelessNotFound | src/pages/users/UserManagement.tsx:20-23 | a user without a name and a non-matching e-mail is not listed |
| PermissionManagement.FilterResources | src/pages/saas/PermissionManagement.tsx:70-76 | all resources for an empty query; otherwise a subsequence, kept iff name or code matches |
| PermissionManagement.CodeMatchSuffices | src/pages/saas/PermissionManagement.tsx:72-75 | a match on the code alone is enough |
| PermissionManagement.NarrowingSearch | src/pages/saas/PermissionManagement.tsx:70-76 | typing more only drops resources |

## Left out

Not modelled:

- **I/O and runtime.** Timers, `console` output, `scrollIntoView`, React
  rendering, and the `isLoading`/`isSubmitting` flags shown while a call is
  pending. A remote call is one settled step.
- **Network, database and realtime transport.** They are parameters: each
  call is given its settled outcome. Channel callbacks are explicit methods
  (`ReceiveMessage`, `AddNotification`).
- **Lower-casing.** `toLowerCase` is ASCII only; non-ASCII letters keep
  their case.
- **String length.** `.length` counts `char`s, not UTF-16 code units.
- **`JSON.parse`** in the tenant registration error handling is abstract
  (`JsonParse`). A `message` field that is not a string is not modelled.
- **A `null` user name** is the empty string. For searching it behaves the
  same, since a non-empty query never matches `''`.
- **The CNPJ lookup inside the forms** (`consultarCNPJ` effects that
  auto-fill company fields). The lookup client itself is `PersonApi`. In
  the tenant registration, its asynchronous result could change the company
  name after the first step was validated.
- **The license form's `addLicense` call.** After a successful
  `licenseAPI.create` the form calls the SaaS store's `addLicense`. That call
  is `SaasStore.SaasStore.AddLicense` and is not chained into
  `LicenseForm.HandleSubmit`.
- **Feature flags and address sub-fields** of the new-tenant request are
  carried as data, not checked.
- **Extra fields of form contacts.** They keep only type and identifier.
  The `metadata` of stored contacts is reduced to `hidden`.
- **ChatApi getParticipants, addParticipant, removeParticipant.** They are
  single backend calls whose only logic is `if (error) throw error`. That
  shape is `Basics.RaiseError` / `Basics.RowsOrEmpty`; they get no members
  of their own.
- TenantRegistration.Registration.ChangeCompanyName: requires the first step, because the company inputs exist only on that screen.
- TenantRegistration.Registration.ChangeDocumentType: requires the first step, for the same reason.
- TenantRegistration.Registration.ChangeDocument: requires the first step, for the same reason.

## Quirks of the code, modelled as written

- **The CNPJ route forwards the parameter as received.** The registry URL
  keeps its separators, not the 14 digits it validated
  (`PersonRoute.FormattedParamForwardedRaw`).
- **A disposer unsubscribes whatever channel the service currently
  holds.** A stale one closes the newer room's channel
  (`Realtime.StaleDisposerClosesNewChannel`).
- **The chat page clears the input after every send.** The store's
  `sendMessage` catches its own errors, so the page's catch never runs
  (`ChatPage.HandleSendMessage`).
- **`setCurrentTenant('')` sends the next `getTenantId` remote.** The
  empty string is falsy (`TenantResolver.SetEmptyThenGet`).
- **`validateDocument` is never called by the license form's
  validation** (`LicenseForm.DocumentNotValidated`).
- **The license form's placeholder fails its own check.**
  `empresa.com.br` fails `validateDomain` (`LicenseForm.PlaceholderRejected`).
- **`addNotification` adds one to the unread count even for a read
  arrival** (`NotificationsStore.NotificationStore.AddNotification`).
- **The notification store's fetch error branch is unreachable**, because
  `findAll` never throws.
- **The new-tenant form's extra `!name || !companyEmail` guard never
  fires** (`NewTenantForm.ValidFormHasNameAndEmail`).
- **Editing a user appends the e-mail contact again on every save**
  (`UserForm.EditRepeatsEmail`).
- **Tenant registration error messages.** A JSON `null` message shows the
  raw text, and an empty `Error` message shows an empty error.
- **Tenant registration submits after validating only the current step**
  (`TenantRegistration.Registration.HandleSubmit`).
