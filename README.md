# Entregaszap — a verified model of the delivery logic

Entregaszap is a package-delivery application for residential buildings
(condomínios). The doorman registers a parcel or a visitor for one or more
residents, and each resident gets a WhatsApp message through an outbound
webhook. A parcel comes with a five-digit retrieval code. When the parcel is
collected, the pickup is confirmed against that code. Residents who have not
collected theirs can be sent reminders. The administrator keeps the
residents, employees and buildings, and imports residents from a semicolon
CSV. Reports can be filtered and exported. A login screen sends a CPF and a
password to a three-stage role dispatch: super administrator, then employee
(funcionário), then building manager (síndico). The employee and the
building manager each get a dashboard scoped to their own building.

This project models that logic in Dafny and proves what the code promises:

- **Identity cache.** The backend keys rows by UUID strings. On screen each
  row has a small number that a module-level cache hands out, starting at 1
  in first-seen order. `Adapters.IdCache` is that cache as a class. Its
  invariant is a bijection between the cache's two maps. The row shapers sit
  beside it as pure functions.
- **Delivery registration.** `NewDelivery.DeliveryForm` is the registration
  form as a class. Its setters play the effects that reset dependent fields.
  The retrieval code is a small state machine. `SendNotifications` is the
  per-resident send loop, with its success counter and the deliveries it files.
- **Pickup confirmation** (`Pickups.PickupScreen`). Code lookup, then
  persist-then-update.
- **Reminders** (`Reminder.ReminderScreen`). The candidate list, its
  partition into not-yet-reminded and reminded, the day filter, and the batch
  send loop that splits ids into successful and failed sets.
- **Reports** (`DeliveryReports.ReportScreen`). The filter, the statistics,
  the CSV rows, and selection.
- **Administrator screen** (`Dashboard.DashboardLayout`). `addDelivery`, the
  delete handlers, the forms and the webhook editor. Its pure helpers sit in
  `AppHelpers`: colours, initials, title case, resident normalisation,
  grouping, and the CSV importer.
- **Login form** (`Login`), **role dispatch and saved session** (`Auth`),
  and the **building-scoped dashboards** (`ScopedViews`, `SindicoDashboard`,
  `FuncionarioDashboard`).

Shared helpers live in their own modules:

- `Wrappers`: `Option`.
- `Text`: the JavaScript string operations the code uses. Its case mapping covers ASCII and Latin-1 only, one character to one.
- `Seqs`: filter, find, sort and subsequence.
- `Selection`: the checkbox-set handlers.
- `Entities`: the record types.
- `Messaging`: phone formatting and webhook lookup.

Inputs the model does not compute:

- Backend calls and webhook `fetch`es are inputs. A `Call` is `Completed` or
  `Raised`. A webhook outcome is `Responded(ok)` or `Threw`. Creates are
  modelled as `CreateOutcome`.
- `Date.now()` and ISO timestamps are parameters. Clock- and zone-dependent
  tests are functions passed in: `isToday`, `timeOf`, `daysSince`, and
  `localeText` for formatted dates.
- `Math.random()` is a parameter `r` with `0 <= r < 1`. The model then
  applies the code's own `Math.floor` arithmetic to it.
- The iteration order of a JavaScript `Set` is a parameter `order`: the
  set's elements, each once.
- `localStorage` is the value `Auth.SavedEntry`.

## Model

| member | source | states |
|---|---|---|
| Adapters.EmptyCache | lib/adapters.ts:23-25 | the cache starts with both maps empty and the next number at 1, and satisfies the bijection invariant |
| Adapters.Intern | lib/adapters.ts:27-34 | a known UUID returns its number and leaves the cache as it was; a new one gets the next number and the counter advances by one; no existing entry changes; the invariant is kept |
| Adapters.InternIdempotent | lib/adapters.ts:27-34 | converting the same UUID twice gives the same number, and the second call leaves the cache alone |
| Adapters.CacheInjective | lib/adapters.ts:28-31 | under the invariant, distinct UUIDs hold distinct numbers |
| Adapters.InternAll | lib/adapters.ts:27-34 | converting a list of UUIDs numbers every one of them and keeps every earlier number |
| Adapters.FirstSeenOrder | lib/adapters.ts:25-31 | distinct new UUIDs are numbered next, next+1, … in the order they are first seen |
| Adapters.LookupUuid | lib/adapters.ts:36-38 | `numberToUuid` yields a UUID exactly when the number is mapped to a non-empty one (the `\|\| null`) |
| Adapters.InternRoundTrip | lib/adapters.ts:30-38 | for every non-empty UUID, looking up the number it was given returns that UUID |
| Adapters.EmptyUuidNotRecoverable | lib/adapters.ts:37 | the empty UUID gets a number, but looking that number up gives null |
| Adapters.NeverIssued | lib/adapters.ts:25 | a number the cache never issued, 0 in particular, looks up to null |
| Adapters.IdCache.constructor | lib/adapters.ts:23-25 | a fresh cache is the empty cache and satisfies the invariant |
| Adapters.IdCache.UuidToNumber | lib/adapters.ts:27-34 | the method updates the two maps and the counter exactly as `Intern` does, and keeps the invariant |
| Adapters.IdCache.CondominioToApp | lib/adapters.ts:46-59 | the building is numbered through the cache and shaped by `CondoShape` |
| Adapters.IdCache.MoradorToApp | lib/adapters.ts:62-74 | the resident is numbered through the cache and shaped by `MoradorShape` |
| Adapters.IdCache.FuncionarioToApp | lib/adapters.ts:77-88 | the employee is numbered through the cache and shaped by `FuncionarioShape` |
| Adapters.IdCache.EntregaToApp | lib/adapters.ts:91-110 | the delivery, its resident and its employee are numbered in that order; for a non-empty row UUID, `numberToUuid(d.id)` gives back `d.uuid` |
| Adapters.CondoNameOf | lib/adapters.ts:63-71 | the name of the first building with the row's building id, or `''` when no building matches |
| Adapters.CondoShape | lib/adapters.ts:46-59 | name, address fields with `''` defaults, and the webhook URL only when it is non-empty |
| Adapters.MoradorShape | lib/adapters.ts:62-74 | fields copied; a null or empty block becomes `''`; the building is the first matching building's name |
| Adapters.FuncionarioShape | lib/adapters.ts:77-88 | fields copied, no password, and the building name by the first matching id |
| Adapters.StatusOf | lib/adapters.ts:92-96 | the status is picked-up exactly for `retirada`; every other string is pending |
| Adapters.StatusTable | lib/adapters.ts:92-104 | `pendente` gives pending, `retirada` gives picked-up, and `cancelada` and the empty string give pending |
| Adapters.EntregaShape | lib/adapters.ts:97-110 | `uuid = db.id`, the status via the table, and the optional fields null-or-empty to missing |
| Adapters.AppToMorador | lib/adapters.ts:113-122 | fields copied; an empty block becomes null |
| Adapters.OrNull | lib/adapters.ts:117 | `x \|\| null` on a string: missing exactly when it is empty |
| Adapters.AppToFuncionario | lib/adapters.ts:124-133 | fields copied; an empty or missing password becomes `'123456'`, so the stored password is never empty |
| Adapters.AppToCondominio | lib/adapters.ts:135-144 | name and address copied, the placeholder postcode, and active |
| Adapters.AppToEntrega | lib/adapters.ts:146-160 | the code and the three ids copied, status `pendente`, and the photo only when non-empty |
| Adapters.MoradorRoundTrip | lib/adapters.ts:62-122 | a resident written by `appToMorador` and read back by `moradorToApp` is the same resident under its new number and its building's name |
| Messaging.FormatPhoneNumber | components/NewDelivery.tsx:333-339 | the result is all digits and starts with `55`; the digits are unchanged when they already start with `55`, and otherwise `55` is prepended |
| Messaging.FormatPhoneIdempotent | components/NewDelivery.tsx:333-339 | formatting a formatted number changes nothing |
| Messaging.WebhookUrlFor | components/NewDelivery.tsx:364-366 | the first building whose name matches case-insensitively gives its non-empty webhook URL; otherwise the default URL; never empty |
| Selection.Toggle | components/DeliveryReports.tsx:293-300 | checking adds the id and unchecking removes it; every other id keeps its membership |
| Selection.IdSet | components/DeliveryReports.tsx:304 | `new Set(ids)` has exactly the listed ids |
| Selection.SelectAll | components/DeliveryReports.tsx:302-308 | select-all gives exactly the listed ids; unchecking gives the empty set |
| Selection.SelectAllThenAllSelected | components/DeliveryReports.tsx:302-313 | after select-all the header reads ticked exactly when the list is non-empty; after unchecking it never reads ticked |
| Selection.ToggleOffClearsAll | components/DeliveryReports.tsx:293-313 | unticking any listed row makes the header read unticked |
| Entities.NewLocalDelivery | App.tsx:281-287 | the prepended delivery has the given id and uuid, is pending, is received now, and carries the form's code, ids, photo and note |
| Entities.ResidentOf | components/DeliveryReports.tsx:252 | `residents.find` by the delivery's resident id: a listed resident with that id, or none exactly when no resident has it |
| Entities.EmployeeOf | components/DeliveryReports.tsx:253 | the same lookup for the delivery's employee |
| NewDelivery.CondoOptions | components/NewDelivery.tsx:69-72 | the building names of the residents, sorted and without repeats |
| NewDelivery.BlockOptions | components/NewDelivery.tsx:76-97 | the sorted, distinct blocks of the chosen building's residents |
| NewDelivery.AptOptions | components/NewDelivery.tsx:100-124 | the sorted, distinct apartments in the chosen building and block |
| NewDelivery.MatchResidents | components/NewDelivery.tsx:127-152 | nothing without a building and an apartment; otherwise exactly the residents matching the building (trimmed, case-insensitive), the apartment and, when one is chosen, the block |
| NewDelivery.NewCode | components/NewDelivery.tsx:159 | `Math.floor(10000 + r * 90000)` is a five-digit numeral in [10000, 99999] |
| NewDelivery.CodeEffect | components/NewDelivery.tsx:155-167 | on the package service an existing code is kept and an empty one generated; on any other service the code is cleared |
| NewDelivery.CodeEffectSettles | components/NewDelivery.tsx:155-167 | running the effect again, with any random draw, changes nothing, so the code is never regenerated while the service stays selected |
| NewDelivery.CodeEffectKeepsInv | components/NewDelivery.tsx:155-167 | after the effect, a code exists exactly on the package service and it is a five-digit code |
| NewDelivery.ServiceMessageDetail | components/NewDelivery.tsx:282-290 | Uber, 99 and Taxi read "Seu … chegou", and an unknown service reads "Sua encomenda (…) chegou" |
| NewDelivery.ServiceMessageTable | components/NewDelivery.tsx:282-290 | the phrase for each listed service |
| NewDelivery.GenerateMessage | components/NewDelivery.tsx:292-331 | the message greets the resident; on the package service it carries the code line, otherwise the service phrase |
| NewDelivery.ObservationOf | components/NewDelivery.tsx:396-399 | the note is sent exactly when the trimmed observation is non-empty, and then trimmed |
| NewDelivery.ComposePayload | components/NewDelivery.tsx:383-405 | building, resident and message are copied; the phone is formatted; the code is sent exactly on the package service with a code, and the service name otherwise; `foto_url` is sent exactly when a non-empty photo URL exists, and the note exactly when its trimmed text is non-empty |
| NewDelivery.PayloadCarriesCode | components/NewDelivery.tsx:383-405 | with a code from the code effect, the payload carries the code exactly on the package service, and its message shows that code |
| NewDelivery.EmployeeIdFor | components/NewDelivery.tsx:432-441 | a random active employee's id, or the sentinel 0 when none is active |
| NewDelivery.Registrations | components/NewDelivery.tsx:424-447 | deliveries are filed only on the package service with a code, at most one per resident |
| NewDelivery.RegistrationsFiled | components/NewDelivery.tsx:424-447 | each filed delivery is for a notified resident whose webhook answered ok, with the shared code, the photo and the trimmed note |
| NewDelivery.RegistrationsPerSuccess | components/NewDelivery.tsx:424-462 | on the package service with a code, one delivery is filed per ok response |
| NewDelivery.RegistrationsWithoutEmployee | components/NewDelivery.tsx:441 | with no active employee every filed delivery carries the employee id 0 |
| NewDelivery.RegistrationsStep | components/NewDelivery.tsx:373-483 | one more resident appends one delivery exactly when its response was ok on the package service with a code |
| NewDelivery.SendNotifications | components/NewDelivery.tsx:371-483 | the loop: `successCount` is the number of ok responses and never exceeds the residents notified; one payload per resident; the filed deliveries are `Registrations` |
| NewDelivery.DeliveryForm.constructor | components/NewDelivery.tsx:30-66 | the form starts empty: no building, block, apartment, selection, service, code, note or photo |
| NewDelivery.DeliveryForm.SetCondo | components/NewDelivery.tsx:76-97 | a new building clears block, apartment and selection, so nothing is matched; the same building changes nothing else |
| NewDelivery.DeliveryForm.SetBlock | components/NewDelivery.tsx:100-124 | a new block clears apartment and selection; the same block changes nothing else |
| NewDelivery.DeliveryForm.SetApt | components/NewDelivery.tsx:127-152 | a new apartment clears the selection; the same apartment keeps it |
| NewDelivery.DeliveryForm.ToggleResident | components/NewDelivery.tsx:127-152 | only that resident's selection changes |
| NewDelivery.DeliveryForm.SelectService | components/NewDelivery.tsx:155-167 | the service is set and the code becomes what the code effect gives |
| NewDelivery.DeliveryForm.SetObservation | components/NewDelivery.tsx:396-399 | only the note changes |
| NewDelivery.DeliveryForm.SetPhoto | components/NewDelivery.tsx:347-359 | only the photo flag changes |
| NewDelivery.DeliveryForm.ResetForm | components/NewDelivery.tsx:269-279 | every field back to empty, the code and the service included |
| NewDelivery.DeliveryForm.HandleSendMessage | components/NewDelivery.tsx:341-490 | nothing happens without a selection or a service; otherwise the selected matched residents are notified at the building's webhook, the counts and filed deliveries are those of `SendNotifications`, and after a success every field of the form is reset (building, block, apartment, selection, service, code, note and photo); with no success nothing changes |
| NewDelivery.DeliveryForm.Dispatch | components/NewDelivery.tsx:360-483 | with a service chosen, the ticked matches in list order are notified at the building's webhook, one `Notice` each; the counts and filed deliveries are those of `SendNotifications` over them; the form is not touched |
| Pickups.FindPendingByCode | components/Pickups.tsx:117-134 | nothing below five trimmed characters; otherwise the first delivery in list order that is pending with exactly the trimmed code; none exactly when no delivery is |
| Pickups.ShortCodeFindsNothing | components/Pickups.tsx:118-134 | a trimmed search shorter than five characters finds nothing |
| Pickups.PickupTarget | components/Pickups.tsx:145-159 | the delivery's own non-empty UUID, else the cache's UUID for its number; never the empty string |
| Pickups.LocalOnlyCannotBeConfirmed | components/Pickups.tsx:147-153 | a delivery with no UUID whose number the cache never issued has nothing to confirm against |
| Pickups.PickedUpRecord | components/Pickups.tsx:165-171 | the delivery becomes picked-up with the pickup date and the person, and every other field is kept |
| Pickups.MarkPickedUp | components/Pickups.tsx:165-171 | the delivery with the matched id is marked picked up; every other delivery is unchanged; the length is kept |
| Pickups.PickupLeavesOtherPending | components/Pickups.tsx:165-171 | after confirming, the pending deliveries are the old pending ones minus that id |
| Pickups.GeneratePickupMessage | components/Pickups.tsx:97-115 | the message heads with the building and the resident, and carries the code and who collected it |
| Pickups.PickupNotice | components/Pickups.tsx:183-191 | the notice is of type `confirmacao_retirada`, carries the code and the person, and has the formatted phone |
| Pickups.NotifyOn | components/Pickups.tsx:173-199 | a POST only for a confirmation with a known resident, to that resident's building webhook, whose body is the pickup notice for the found delivery and the collector |
| Pickups.PendingDeliveries | components/Pickups.tsx:228-233 | a permutation of the pending deliveries, newest received first |
| Pickups.PickedUpDeliveries | components/Pickups.tsx:235-240 | a permutation of the picked-up deliveries that have a pickup date, newest pickup first |
| Pickups.ListsMembership | components/Pickups.tsx:228-240 | a delivery is in the pending list exactly when it is pending, in the history exactly when it is picked up with a date, and never in both |
| Pickups.ConfirmOutcome | components/Pickups.tsx:137-226 | no found delivery does nothing; an unresolved UUID is rejected; a failed persist leaves everything; only a completed persist confirms |
| Pickups.PickupScreen.constructor | components/Pickups.tsx:64-69 | empty search; pickup person `O proprio(a)` |
| Pickups.PickupScreen.SetSearchCode | components/Pickups.tsx:117-134 | a changed search shorter than five trimmed characters resets the pickup person; otherwise it is kept |
| Pickups.PickupScreen.SetPickupPerson | components/Pickups.tsx:69 | only the pickup person changes |
| Pickups.PickupScreen.ConfirmPickup | components/Pickups.tsx:137-226 | the list changes only after a completed persist, and then only the found delivery; the form clears; a webhook failure changes none of that; in every other case the state is unchanged; the POST made is `NotifyOn`'s for the outcome, the found delivery and the collector as they were |
| Pickups.PickupScreen.RecordPickup | components/Pickups.tsx:165-176 | the confirmed delivery is marked in the list, the code box and the pickup person are reset, and the selection is untouched |
| Pickups.PickupScreen.Select | components/Pickups.tsx:246-253 | only that id's selection changes |
| Pickups.PickupScreen.SelectAllPickedUp | components/Pickups.tsx:255-261 | select-all gives exactly the history's ids; unchecking gives nothing |
| Pickups.NoHistoryNotAllSelected | components/Pickups.tsx:263-266 | with an empty history the header is never ticked |
| Reminder.Candidates | components/Reminder.tsx:84-89 | each candidate pairs a delivery with its listed resident |
| Reminder.CandidatesAreFiltered | components/Reminder.tsx:84-89 | the candidates' deliveries are, in order, exactly the deliveries that are pending, not excluded, and have a known resident |
| Reminder.CandidateMembership | components/Reminder.tsx:84-89 | a delivery is a candidate exactly when it is listed, pending, not excluded and has a resident |
| Reminder.ExcludedNeverOffered | components/Reminder.tsx:86 | no candidate is excluded and every candidate is pending |
| Reminder.ViewsPartition | components/Reminder.tsx:91-92 | the not-yet-reminded and reminded views split the candidates by membership in `sentReminderIds`; their sizes add up |
| Reminder.ApplyFilters | components/Reminder.tsx:94-121 | the filtered list keeps exactly the candidates passing the search and the day filter |
| Reminder.ApplyFiltersKeepsOrder | components/Reminder.tsx:94-121 | the filtered list is a subsequence of its input |
| Reminder.NoFilterShowsAll | components/Reminder.tsx:98-119 | with an empty search and the `all` filter nothing is dropped |
| Reminder.WeekOldIsThreeDaysOld | components/Reminder.tsx:111-117 | what `7days` keeps, `3days` keeps |
| Reminder.GenerateReminderMessage | components/Reminder.tsx:152-168 | the message heads with the building and resident, and embeds the delivery's code |
| Reminder.ReminderNotice | components/Reminder.tsx:198-203 | the payload names the building and resident, has the formatted phone, and its message has the code |
| Reminder.ResolveReminders | components/Reminder.tsx:182-184 | the ids that resolve to candidates, in the given order |
| Reminder.ResolvedIds | components/Reminder.tsx:182-184 | the batch is exactly the requested ids that resolve to a candidate |
| Reminder.ResolvedDistinct | components/Reminder.tsx:182-184 | no delivery appears twice in the batch |
| Reminder.SplitByOutcome | components/Reminder.tsx:186-220 | the successes and failures of a batch are disjoint and together are the batch's ids |
| Reminder.SendReminders | components/Reminder.tsx:176-233 | an empty set sends nothing and returns two empty sets; otherwise one post per resolved candidate, in order, at its building's webhook, whose body is `ReminderNotice` dated with the receipt's locale date and time; the two sets are disjoint and their union is the requested ids that resolve |
| Reminder.PostBatch | components/Reminder.tsx:190-224 | the loop: one request per reminder, in order, the one `postFor` builds for it (its contents are stated by `SendReminders`); the accepted ids are `Succeeded` of the batch and the others `Failed` |
| Reminder.BatchSplit | components/Reminder.tsx:186-220 | the success and failure sets of the resolved batch are disjoint and make up its ids |
| Reminder.SucceededStep | components/Reminder.tsx:205-220 | an ok response adds the id to the successes; anything else adds it to the failures |
| Reminder.ShownIds | components/Reminder.tsx:137 | the ids of the listed candidates, in order |
| Reminder.HeaderTickedWithUntickedRow | components/Reminder.tsx:322 | two listed rows and a selection of two ids, one not listed, tick the header although a listed row is unticked |
| Reminder.HeaderTestsAgree | components/Reminder.tsx:322 | when the selection holds only listed ids, the size test and the every-row test agree |
| Reminder.HeaderTickedBehaves | components/Reminder.tsx:322 | the every-row test is ticked after select-all and unticked after clearing it or after unticking any listed row |
| Reminder.ReminderScreen.constructor | components/Reminder.tsx:72-82 | no search, the `all` filter, and every id set empty |
| Reminder.ReminderScreen.SetSearchQuery | components/Reminder.tsx:99-103 | only the search changes |
| Reminder.ReminderScreen.SetDayFilter | components/Reminder.tsx:111-117 | only the day filter changes |
| Reminder.ReminderScreen.Select | components/Reminder.tsx:126-133 | only that id's selection changes in the pending list |
| Reminder.ReminderScreen.SelectAllNotReminded | components/Reminder.tsx:135-137 | select-all gives exactly the shown pending ids |
| Reminder.ReminderScreen.SelectSent | components/Reminder.tsx:139-146 | only that id's selection changes in the reminded list |
| Reminder.ReminderScreen.SelectAllReminded | components/Reminder.tsx:148-150 | select-all gives exactly the shown reminded ids |
| Reminder.ReminderScreen.HandleSend | components/Reminder.tsx:235-246 | the posts are the reminder notices of the ticked offered deliveries at their buildings' webhooks; the successes join `sentReminderIds`, which never shrinks; the selection clears only when something succeeded; the successes and failures split the resolvable selected ids |
| Reminder.ReminderScreen.HandleResend | components/Reminder.tsx:248-253 | the posts are the reminder notices of the ticked reminded deliveries; `sentReminderIds` is unchanged and the reminded selection is cleared |
| Reminder.ReminderScreen.HandleDeleteSent | components/Reminder.tsx:255-266 | with no selection nothing changes; otherwise the selected ids are excluded, the selection cleared, and none of them is offered again |
| DeliveryReports.FilteredDeliveries | components/DeliveryReports.tsx:169-196 | exactly the deliveries matching every filter |
| DeliveryReports.FilteredKeepsOrder | components/DeliveryReports.tsx:169-196 | the filtered list is an order-preserving subsequence of the deliveries |
| DeliveryReports.ClearedShowsAll | components/DeliveryReports.tsx:182-192 | with every filter empty, every delivery is shown |
| DeliveryReports.OptionValueMatchesId | components/DeliveryReports.tsx:185-188 | an option's value `String(id)`, read back by `parseInt`, matches exactly that id |
| DeliveryReports.StatusFilterKeepsStatus | components/DeliveryReports.tsx:182 | a status filter shows only deliveries with that status |
| DeliveryReports.StatsOf | components/DeliveryReports.tsx:318-322 | total, pending and picked-up are the counts over the filtered list, and pending plus picked-up is the total |
| DeliveryReports.OrNA | components/DeliveryReports.tsx:256-262 | `x \|\| 'N/A'` is never empty and keeps a non-empty value |
| DeliveryReports.CsvFields | components/DeliveryReports.tsx:251-264 | eight fields: the code, the resident's name, the resident's apartment and block joined by ` / `, the employee's name (each `N/A` when unknown or empty), `Pendente`/`Retirada`, and the dates and person |
| DeliveryReports.CsvRowColumns | components/DeliveryReports.tsx:251-264 | splitting a row at `;` gives back its eight fields |
| DeliveryReports.CsvDocumentLines | components/DeliveryReports.tsx:276-281 | the export has the header line plus one line per filtered delivery, each that delivery's row |
| DeliveryReports.SingleDeliveryCsv | components/DeliveryReports.tsx:283-291 | nothing for an id not in the filtered list; otherwise `entrega_<code>.csv` holding the header and that delivery's row |
| DeliveryReports.ReportScreen.constructor | components/DeliveryReports.tsx:160-167 | no search and no filters |
| DeliveryReports.ReportScreen.SetSearchQuery | components/DeliveryReports.tsx:161 | only the typed search changes |
| DeliveryReports.ReportScreen.HandleSearch | components/DeliveryReports.tsx:198-200 | the typed search becomes the applied search |
| DeliveryReports.ReportScreen.HandleKeyDown | components/DeliveryReports.tsx:202-206 | Enter applies the search; any other key changes nothing |
| DeliveryReports.ReportScreen.SetCriteria | components/DeliveryReports.tsx:163-167 | the status, employee, resident and date filters are set and the applied search is kept |
| DeliveryReports.ReportScreen.ClearFilters | components/DeliveryReports.tsx:208-216 | every filter and the search are cleared, so every delivery is shown |
| DeliveryReports.ReportScreen.SelectDelivery | components/DeliveryReports.tsx:293-300 | only that id's selection changes |
| DeliveryReports.ReportScreen.SelectAllListed | components/DeliveryReports.tsx:302-308 | select-all gives exactly the filtered ids; unchecking gives nothing |
| DeliveryReports.AllSelectedMeans | components/DeliveryReports.tsx:310-313 | the header is ticked exactly when the filtered list is non-empty and every filtered id is selected |
| AppHelpers.HexToRgb | App.tsx:142-151 | a colour exactly for an optional `#` and six hex digits in either case, with each channel in 0..255 |
| AppHelpers.RgbHexRoundTrip | App.tsx:142-151 | any colour written as `#rrggbb` parses back to itself |
| AppHelpers.HexToRgbRoundTrip | App.tsx:142-151 | an accepted string writes back as `#` and its digits in lower case |
| AppHelpers.Initials | App.tsx:230-237 | at most two letters |
| AppHelpers.InitialsOfFullName | App.tsx:230-237 | the upper-cased first letters of the first two words |
| AppHelpers.InitialsOfSingleName | App.tsx:230-237 | one word gives its upper-cased first letter |
| AppHelpers.ToTitleCase | App.tsx:627-630 | the length is kept and so is the text up to case |
| AppHelpers.TitleCaseWords | App.tsx:627-630 | each space-separated word is lower-cased with its first character upper-cased |
| AppHelpers.TitleCaseIdempotent | App.tsx:627-630 | title-casing twice is title-casing once |
| AppHelpers.NormalizeResident | App.tsx:638-643 | apartment trimmed, block trimmed and upper-cased, building trimmed and title-cased; name, phone and status kept |
| AppHelpers.NormalizeIdempotent | App.tsx:638-643 | normalising twice is normalising once |
| AppHelpers.MatchCondo | App.tsx:645-647 | the backend building whose name matches case-insensitively, or none exactly when no name does |
| AppHelpers.SubmitResident | App.tsx:632-652 | ignored without a name; rejected when no building matches; otherwise the normalised resident saved against the matching building |
| AppHelpers.ShownMember | App.tsx:415-426 | a resident is shown exactly when it passes the search and the building filter |
| AppHelpers.GroupResidentsByBlock | App.tsx:414-441 | the grouping loop builds exactly the block/apartment buckets of the shown residents |
| AppHelpers.GroupedMembers | App.tsx:414-441 | each shown resident sits under its trimmed upper-case block and trimmed apartment; every grouped resident is a shown one under its own keys |
| AppHelpers.NormalizeNewlines | App.tsx:759 | text without carriage returns is unchanged |
| AppHelpers.CrlfLines | App.tsx:759 | `\r\n`-joined lines normalise to `\n`-joined lines |
| AppHelpers.CsvLines | App.tsx:759 | the kept lines hold no line break and are not blank |
| AppHelpers.RemoveCarriageReturns | App.tsx:773 | no `\r` is left, and text without one is unchanged |
| AppHelpers.RowResident | App.tsx:765-776 | a row is read exactly when its first five fields are non-empty, and is active with the given id |
| AppHelpers.RowIsNormalized | App.tsx:765-776 | an imported row is already what the resident form's normalisation makes of it |
| AppHelpers.RowFromFields | App.tsx:765-776 | the fields are stored trimmed, with the block upper-cased and the building title-cased |
| AppHelpers.StartIndex | App.tsx:763 | the first line is skipped exactly when it contains `nome` in any case |
| AppHelpers.ImportedFromLines | App.tsx:759-778 | every imported resident is read from a kept, non-header line, with id `now + i` |
| AppHelpers.ImportedIds | App.tsx:765-770 | the ids lie between `now + start` and `now + lines` and increase |
| AppHelpers.ImportedNormalized | App.tsx:765-776 | every imported resident is active and normalised |
| AppHelpers.HeaderSkipped | App.tsx:763 | with a header line, no resident carries the header's id |
| AppHelpers.FirstLineRead | App.tsx:763-776 | an acceptable first line that is not a header is imported |
| AppHelpers.LineRead | App.tsx:765-776 | every acceptable line after the first is imported |
| AppHelpers.ReadRows | App.tsx:765-778 | the loop pushes exactly the rows `RowsBetween` describes |
| AppHelpers.ImportCsv | App.tsx:759-778 | the import loop yields `ImportedResidents` |
| AppHelpers.UploadAsWritten | App.tsx:757-778 | as written: when it does not crash, the rows imported are `ImportedResidents` |
| AppHelpers.CrashIffBlank | App.tsx:757-763 | as written, the upload crashes exactly on non-empty text whose every line is blank |
| AppHelpers.BlankLineCrashes | App.tsx:759-763 | the text `"\n"` crashes the upload |
| AppHelpers.UploadCorrected | App.tsx:757-778 | the corrected import imports nothing from blank text and otherwise agrees with the code as written |
| Dashboard.WithoutKeys | App.tsx:353 | `filter(x => !ids.has(key(x)))`: exactly the entries whose key is not among the ids, in order |
| Dashboard.WithoutAbsentKeys | App.tsx:353 | removing ids no entry carries keeps the list |
| Dashboard.WithoutKeysIdempotent | App.tsx:380-381 | removing the same ids twice removes nothing more |
| Dashboard.ResolveIds | App.tsx:250-266 | the resident and employee UUIDs come from the cache, and no building is found for an unlisted resident |
| Dashboard.ResolvedBuilding | App.tsx:252-266 | a resolved building UUID is the cached id of a building named as the listed resident's building |
| Dashboard.DeliveryRow | App.tsx:302-310 | the row sent has the code, the three resolved ids, status `pendente`, and empty photo and note as null |
| Dashboard.AddOutcome | App.tsx:245-345 | unresolved ids keep a local delivery and send nothing; otherwise the row is sent, and the delivery is prepended with the saved UUID, kept locally when the create throws, or dropped when it returns nothing |
| Dashboard.Prepend | App.tsx:329 | `[d, ...list]` when a delivery is prepended, else the list |
| Dashboard.SentinelEmployeeStaysLocal | App.tsx:262-291 | a delivery with the "no active employee" id 0 is always kept locally and never sent |
| Dashboard.SavedDeliveryLinks | App.tsx:312-330 | a saved delivery carries the saved UUID, and the row it came from points at the cached UUIDs of its resident and employee |
| Dashboard.MergeEmployee | App.tsx:459-463 | `{ ...emp, ...form }`: the form's fields, with the stored password when the form has none |
| Dashboard.MergeUnchanged | App.tsx:459-463 | saving an unedited employee gives it back |
| Dashboard.NewEmployee | App.tsx:465-472 | the new employee takes the form's fields, the new id and the default password when none is given |
| Dashboard.ReplaceEmployees | App.tsx:459-463 | only the edited employee changes |
| Dashboard.SubmitEmployee | App.tsx:452-476 | ignored without a name or a CPF; otherwise the edited employee is merged, or a new one appended |
| Dashboard.EditKeepsOthers | App.tsx:459-463 | an edit keeps the list's length and every other employee |
| Dashboard.ReplaceCondos | App.tsx:538-541 | only the edited building changes |
| Dashboard.SubmitCondo | App.tsx:532-546 | ignored without a name; otherwise the edited building is replaced, or a new one appended with the new id |
| Dashboard.WebhookValue | App.tsx:576 | null exactly for blank input, otherwise the trimmed, non-empty URL |
| Dashboard.WebhookValueStable | App.tsx:576 | saving the saved value again stores the same value |
| Dashboard.SetWebhook | App.tsx:580-586 | only that building's webhook changes |
| Dashboard.DashboardLayout.constructor | App.tsx:164-214 | the converted lists, nothing selected, no form or editor open |
| Dashboard.DashboardLayout.AddDelivery | App.tsx:245-345 | only the delivery list changes, by prepending what `AddOutcome` gives; the row sent is `AddOutcome`'s |
| Dashboard.DashboardLayout.DeleteDelivery | App.tsx:347-371 | the confirmed delete removes exactly that id from the deliveries; nothing else changes |
| Dashboard.DashboardLayout.DeleteSelectedDeliveries | App.tsx:373-386 | nothing without a selection; else exactly the selected deliveries are removed and the selection cleared |
| Dashboard.DashboardLayout.DeleteSelectedPickedUp | App.tsx:388-402 | the same over the history's selection |
| Dashboard.DashboardLayout.DeleteEmployee | App.tsx:484-486 | exactly that employee removed |
| Dashboard.DashboardLayout.DeleteCondo | App.tsx:554-556 | exactly that building removed |
| Dashboard.DashboardLayout.DeleteResident | App.tsx:717-732 | the resident is removed only when its UUID is known and the deactivation completes; otherwise nothing changes |
| Dashboard.DashboardLayout.UploadResidentsCsv | App.tsx:750-787 | the imported residents are appended to the list; nothing else changes |
| Dashboard.DashboardLayout.OpenAddEmployee | App.tsx:488-492 | no employee is being edited and the form is the initial one |
| Dashboard.DashboardLayout.EditEmployee | App.tsx:478-482 | the employee is being edited and the form starts as it |
| Dashboard.DashboardLayout.SetEmployeeForm | App.tsx:444-450 | only the form changes |
| Dashboard.DashboardLayout.SubmitEmployeeForm | App.tsx:452-476 | the list becomes what `SubmitEmployee` gives and the form closes; an ignored submit changes nothing |
| Dashboard.DashboardLayout.OpenAddCondo | App.tsx:501-505 | no building is being edited and the form is the initial one |
| Dashboard.DashboardLayout.EditCondo | App.tsx:548-552 | the building is being edited and the form starts as it |
| Dashboard.DashboardLayout.SetCondoForm | App.tsx:513-530 | only the form changes |
| Dashboard.DashboardLayout.SubmitCondoForm | App.tsx:532-546 | the list becomes what `SubmitCondo` gives and the form closes; an ignored submit changes nothing |
| Dashboard.DashboardLayout.EditCondoWebhook | App.tsx:559-562 | the draft is the building's, and the text box holds its URL or nothing |
| Dashboard.DashboardLayout.SetTempWebhookUrl | App.tsx:1867 | only the text box changes |
| Dashboard.DashboardLayout.CancelEditWebhook | App.tsx:597-600 | the editor closes and the text is cleared |
| Dashboard.DashboardLayout.SaveCondoWebhook | App.tsx:564-595 | nothing without a draft, an unknown building or a failed update; otherwise only that building's webhook becomes the trimmed URL, or none for blank input, and the editor closes |
| Login.CpfDigits | components/Login.tsx:15 | the CPF box keeps the first eleven digits of what was typed, and only digits |
| Login.FormatCpf | components/Login.tsx:14-20 | up to three digits unchanged; a dot after the third and sixth and a dash after the ninth, each only when more digits follow |
| Login.FormatCpfDigits | components/Login.tsx:14-20 | stripping the separators from a formatted CPF gives the first eleven digits typed |
| Login.FormatCpfIdempotent | components/Login.tsx:14-20 | formatting what the box shows changes nothing |
| Login.CheckLogin | components/Login.tsx:31-45 | rejected as invalid exactly unless there are eleven digits; then rejected exactly for an empty password; otherwise the digits-only CPF and the password go to `onLogin` |
| Login.SubmitError | components/Login.tsx:26-52 | the invalid-CPF message, the missing-password message, no error on success, and the dispatcher's error or the default on failure |
| Login.FormattedCpfSubmits | components/Login.tsx:14-45 | a typed CPF reaches `onLogin` exactly with at least eleven digits and a password, and carries the first eleven |
| Auth.FailureMessagesDistinct | contexts/AuthContext.tsx:70-143 | the three failure messages differ |
| Auth.AdminUser | contexts/AuthContext.tsx:58-63 | a super administrator user with no building |
| Auth.EmployeeUser | contexts/AuthContext.tsx:89-96 | an employee user carrying its building id and name |
| Auth.SindicoUser | contexts/AuthContext.tsx:119-126 | the manager's id falls back to the building id and the name to `Síndico`; the building id and name are carried |
| Auth.AsCandidate | contexts/AuthContext.tsx:46-135 | a stage's query result keeps its found, not-found or threw form |
| Auth.Deciding | contexts/AuthContext.tsx:46-135 | the first stage that found a record or threw; every earlier one found nothing |
| Auth.Decide | contexts/AuthContext.tsx:46-144 | the deciding stage logs in exactly on the right password, fails with a wrong password on the wrong one, errors when it threw, and no deciding stage means not registered |
| Auth.Stages | contexts/AuthContext.tsx:46-135 | the three stages in order: super administrator, employee, manager |
| Auth.AdminDecides | contexts/AuthContext.tsx:53-72 | a found super administrator decides, whatever the later tables hold |
| Auth.EmployeeDecides | contexts/AuthContext.tsx:85-105 | with no super administrator, a found employee decides |
| Auth.SindicoDecides | contexts/AuthContext.tsx:115-135 | with neither, a found building's manager decides |
| Auth.NotRegisteredIffAllEmpty | contexts/AuthContext.tsx:137-139 | `CPF não encontrado ou inativo` exactly when no table has the CPF |
| Auth.ThrewAborts | contexts/AuthContext.tsx:141-144 | the error result exactly when a query threw before any table had the CPF |
| Auth.RoleOfFirstTable | contexts/AuthContext.tsx:46-135 | a logged-in user has the role of the first table that had the CPF |
| Auth.PageLoad | contexts/AuthContext.tsx:25-26 | on load no user is set and the provider is loading |
| Auth.Restored | contexts/AuthContext.tsx:29-39 | a readable saved user is restored; an unreadable one is removed and not restored; loading ends |
| Auth.AfterLogin | contexts/AuthContext.tsx:65-66 | a successful login sets the user and saves it; a failure changes nothing |
| Auth.AfterLogout | contexts/AuthContext.tsx:147-151 | logout clears the user and the saved entry |
| Auth.LoginSurvivesReload | contexts/AuthContext.tsx:29-66 | after a login and a reload the same user is restored |
| Auth.LogoutSurvivesReload | contexts/AuthContext.tsx:29-151 | after a logout and a reload no user is restored |
| Auth.RestoreIdempotent | contexts/AuthContext.tsx:29-39 | restoring twice is restoring once |
| Auth.AuthProvider.constructor | contexts/AuthContext.tsx:25-26 | the provider starts as the page load state |
| Auth.AuthProvider.Restore | contexts/AuthContext.tsx:29-39 | the state becomes what `Restored` gives |
| Auth.AuthProvider.LogIn | contexts/AuthContext.tsx:41-145 | success exactly when the dispatch logs in, else the failure's message; the state becomes what `AfterLogin` gives |
| Auth.AuthProvider.LogOut | contexts/AuthContext.tsx:147-151 | the state becomes what `AfterLogout` gives |
| ScopedViews.Scoped | components/sindico/SindicoDashboard.tsx:34-53 | exactly the rows whose building id strictly equals the user's, in order; nothing for a user without a building |
| ScopedViews.KeysOf | lib/adapters.ts:27-34 | every UUID a list of rows converts is listed |
| ScopedViews.Converted | lib/adapters.ts:27-110 | `rows.map(toApp)`: the cache after numbering the rows' UUIDs in order, and each record shaped with the numbers it then holds |
| ScopedViews.ResidentsView | components/sindico/SindicoDashboard.tsx:34-39 | one resident per scoped row, each its row converted with the row's cached number |
| ScopedViews.EmployeesView | components/sindico/SindicoDashboard.tsx:41-46 | one employee per scoped row, converted the same way |
| ScopedViews.DeliveriesView | components/sindico/SindicoDashboard.tsx:48-53 | one delivery per scoped row, with its own, its resident's and its employee's cached numbers |
| ScopedViews.CondosViewAsWritten | components/sindico/SindicoDashboard.tsx:29-32 | as written: every building's UUID is interned, and only buildings whose local number's numeral equals the user's building id are kept |
| ScopedViews.UuidListsNoCondo | components/sindico/SindicoDashboard.tsx:29-32 | a building id with any non-digit, as every UUID has, lists no building |
| ScopedViews.CondosView | components/sindico/SindicoDashboard.tsx:29-32 | corrected: the buildings whose UUID is the user's building id, converted |
| ScopedViews.OwnCondoListed | components/sindico/SindicoDashboard.tsx:29-32 | with the corrected comparison the user's own building is listed |
| ScopedViews.CountAlong | components/sindico/SindicoDashboard.tsx:64-70 | two lists read element by element agree on how many elements pass |
| SindicoDashboard.Lists | components/sindico/SindicoDashboard.tsx:29-53 | corrected: the four memos in hook order, with the buildings list comparing UUIDs; each list is the scoped rows converted, and the status flags come from the rows |
| SindicoDashboard.ListsAsWritten | components/sindico/SindicoDashboard.tsx:29-53 | as written: every listed building's numeral is the user's building id; the other three lists hold one converted entry per scoped row, with the rows' status flags |
| SindicoDashboard.AsWrittenListsNoBuilding | components/sindico/SindicoDashboard.tsx:29-32 | as written, a UUID building id lists no building |
| SindicoDashboard.ComputeStats | components/sindico/SindicoDashboard.tsx:55-75 | active counts are bounded by the lists; pending plus picked up is every delivery; the day counts are bounded |
| SindicoDashboard.StatsFromRows | components/sindico/SindicoDashboard.tsx:55-75 | the counters are the building's active residents and employees, its rows not `retirada`, and those received or collected today |
| SindicoDashboard.NoBuildingNoCounts | components/sindico/SindicoDashboard.tsx:34-75 | a user without a building sees every counter at zero |
| FuncionarioDashboard.EmployeeResolve | components/funcionario/FuncionarioDashboard.tsx:69-73 | resident and employee from the cache; the building straight from the user, missing when absent or empty |
| FuncionarioDashboard.EmployeeRow | components/funcionario/FuncionarioDashboard.tsx:102-111 | the main screen's row with `mensagem_enviada = true` and status `pendente` |
| FuncionarioDashboard.EmployeeAddOutcome | components/funcionario/FuncionarioDashboard.tsx:60-140 | a delivery is always prepended, carrying the saved UUID only on a successful create; the row is sent exactly when every id resolves |
| FuncionarioDashboard.AgreesWithMainScreen | components/funcionario/FuncionarioDashboard.tsx:60-140 | against the main screen: the same row apart from the notified flag, the same prepended delivery, and a local one where the main screen drops it |
| FuncionarioDashboard.NoBuildingStaysLocal | components/funcionario/FuncionarioDashboard.tsx:73-98 | a user without a building never sends a row |
| FuncionarioDashboard.EmployeeScreen.constructor | components/funcionario/FuncionarioDashboard.tsx:52-57 | the screen starts with no deliveries |
| FuncionarioDashboard.EmployeeScreen.Refresh | components/funcionario/FuncionarioDashboard.tsx:52-57 | the deliveries and the cache become what `DeliveriesView` gives for the user's building |
| FuncionarioDashboard.EmployeeScreen.AddDelivery | components/funcionario/FuncionarioDashboard.tsx:60-140 | the delivery `EmployeeAddOutcome` gives is prepended and its row, if any, returned |

## Left out

- Backend and webhook I/O are inputs (`Call`, `CreateOutcome`, `Lookup`, webhook outcomes). The Supabase client and the HTTP requests are not modelled: page reloads (`reloadMoradores`), photo upload and storage, and the JSON bodies.
- Clocks, time zones and locale formatting are parameters. The model does not compute day differences, `isSameDay`, `toLocaleString` or the quick date ranges of the reports.
- NewDelivery.SendNotifications: `generateMessage` reads the clock once per resident; the model dates a whole batch with one `date` and `time`.
- `Math.random` is a parameter. The model does not simulate randomness.
- Console logging, `alert`, the progress bars and modals, the confirmation dialog and the `setTimeout` pauses are not modelled. Each delete handler is modelled as its confirmed action.
- The load effects in App.tsx (App.tsx:186-208) are not modelled as their own members. They map the backend rows through the same shapers as `Adapters.IdCache`, and show no residents or employees while no building is loaded.
- Each hook order in React is modelled as an explicit function call in that order (`SindicoDashboard.Lists`). Re-render timing and memo caching are not modelled.
- The resident form's save (`updateResident`/`createResident` and re-reading the response with `moradorToApp`) ends at `AppHelpers.SubmitResident`. The list update depends on the backend's answer, which is not part of this model.
- The admin screen's `handleAddResidentToApt`, the open/close of the resident modal and the camera/photo capture are UI plumbing and are not modelled.
- `Auth.Restored`: the JSON shape of a parsable saved user is not checked, just as the source does not check it. The empty saved string counts as no entry.
- The employee dashboard's pickup and reminder selections and pages are the Pickups and Reminder screens that `FuncionarioDashboard` hands its lists to. They are not modelled again.
- `FuncionarioDashboard.EmployeeScreen.Refresh` loads the cache with the numbering of the pure conversion (`Adapters.IdCache.Load`). It does not call `UuidToNumber` row by row; both give the same state.
- SindicoDashboard.Lists: is the corrected screen, which interns only the user's building UUID. As written (`SindicoDashboard.ListsAsWritten`) the buildings memo interns every building's UUID first, so the residents, employees and deliveries get later local numbers than in `Lists`.
- Text.Lower / Text.Upper: case folding covers ASCII and Latin-1 only, one character to one; any other letter is left as it is. Every case-insensitive match inherits this: `NewDelivery.MatchResidents`, `Messaging.WebhookUrlFor`, `AppHelpers.MatchCondo`, `AppHelpers.SubmitResident`, `AppHelpers.ShownMember` and `AppHelpers.ResidentSearchMatch`, `AppHelpers.StartIndex`, `Reminder.ApplyFilters` and `Reminder.SearchMatch`, and `DeliveryReports.FilteredDeliveries` and `DeliveryReports.SearchMatch`. JavaScript's `toLowerCase` folds "Łódź" to "łódź", so the source matches where the model does not, and the building's webhook then falls back to the default URL.
- AppHelpers.Initials: `Text.UpperChar` maps case one character to one, over ASCII and Latin-1 only. JavaScript's full Unicode mapping can lengthen a string ("ß x" gives "SSX"), so the bound of two characters holds only for that restricted mapping. Dafny characters are Unicode scalar values, so the model takes a whole first character where JavaScript's `n[0]` takes only the first UTF-16 unit of an astral character.
- AppHelpers.ToTitleCase: the kept length rests on the same one-to-one Latin-1 case mapping; in JavaScript "ß" upper-cases to "SS" and "İ" lower-cases to two units.
- AppHelpers.TitleCaseIdempotent: holds for the one-to-one Latin-1 case mapping only; under JavaScript's mapping a word starting with "ß" becomes "SS" and then "Ss".
- AppHelpers.NormalizeIdempotent: inherits the Latin-1 restriction of `TitleCaseIdempotent` for the building name.
- AppHelpers.GroupResidentsByBlock: does not model that the grouping object is a plain object. An apartment key such as `constructor` or `toString` finds an inherited member, so the source's `.push` throws; the model groups such residents like any other.
- Adapters.StatusOf: does not model that the status table is a plain object, so a status such as `toString` would read an inherited member. Every such string maps to pending here.
- Adapters.Intern: the counter is unbounded. It does not model the point at which JavaScript numbers stop being exact integers.
- The sample CSV from `handleDownloadCSV` (App.tsx:734-748) is not proved to import its three rows. A proof over the literal text is too costly for the verifier, and the download itself is browser I/O.
- Building names written with a broken text encoding in App.tsx (for example the initial building filter) are carried over as opaque strings.
- `formatPhoneNumber` appears in NewDelivery, Pickups and Reminder with the same body. It is modelled once, as `Messaging.FormatPhoneNumber`.

## Findings

| source | as written | input that shows it | evidently intended | confidence | as-written member | corrected member |
|---|---|---|---|---|---|---|
| components/Reminder.tsx:322 | the header checkbox of the pending list, and the same test for the reminded list at line 364, is ticked when the number of selected ids equals the number of listed rows | two listed deliveries 1 and 2 and the selection {1, 3}: 3 is still selected but no longer listed, so the header is ticked while delivery 2 is unticked | ticked exactly when the list is non-empty and every listed row is selected, as in the report and pickup screens | not executed | Reminder.HeaderTickedWithUntickedRow | Reminder.HeaderTickedBehaves |
| App.tsx:759-763 | a file of only blank lines leaves `lines` empty, and `lines[0].toLowerCase()` then throws | the text `"\n"` | blank text imports nothing | not executed | AppHelpers.BlankLineCrashes | AppHelpers.UploadCorrected |
| components/sindico/SindicoDashboard.tsx:29-32 | the buildings list keeps a building when its local number's numeral equals the user's building UUID, and the employee dashboard does the same at components/funcionario/FuncionarioDashboard.tsx:32-35 | any UUID, for example `a1b2-…`, since it holds a non-digit: the list is always empty, so the screen's webhook lookups fall back to the default URL | the building whose UUID equals the user's building id | not executed | ScopedViews.UuidListsNoCondo | ScopedViews.OwnCondoListed |
