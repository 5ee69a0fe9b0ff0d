# Event planner front end: local store, event form, invitee table and details page

This project is a Dafny model of the core of an Angular event-planning front end.
The model has four parts:

- **`LocalStorageService`.** This is the browser-storage stand-in for the backend. It seeds four sample events when storage is empty. It lists events by role, recomputes each event's `upcoming`/`past` status from its date, looks events up by id, and creates and deletes events. Only the organizer may delete an event. It records RSVPs and hands out simulated session tokens.
- **The create/edit event form (`CreateEventComponent`).** It manages the invitee list: e-mails are trimmed, checked for syntax and checked for duplicates. It checks the date, then runs the submit flow: invalid form, past date, the confirm dialog when invitees are listed, then the create or the update. It builds the requests it sends. After an edit it issues one add or remove call per e-mail that changed.
- **The invitee table (`EventInviteeTableComponent`).** It sends add and remove requests. It has a remove confirmation, and it derives each status badge's CSS class.
- **The event details page (`EventDetailsPageComponent`).** It loads the event named by the route, tallies the invitees' statuses, and runs the delete confirmation.

How runtime behaviour is represented:

- **Browser storage and time.** Storage is three fields of the service class, one per key. The current day (`today`), `Date.now()` (`now`) and the ids `generateId` would produce (`freshId`, `sampleIds`) are parameters.
- **Dates.** A date is an `Option<int>` day number. `None` stands for an empty or unparseable date string. Such a string gives an Invalid Date, which compares false, so the store classes that event as past.
- **Service calls.** Each call a component makes is split in two:
  - the method that makes the call returns what was sent;
  - an `On…` method applies the subscriber's callback to the answer.
- **JavaScript built-ins.** These are written out: `trim` and the regex class `\s` (the ECMAScript WhiteSpace and LineTerminator characters), `includes`, and the decimal rendering of a number.
- **The e-mail pattern.** The pattern `^[^\s@]+@[^\s@]+\.[^\s@]+$` is run as a finite automaton. `ValidEmailIff` proves that it accepts exactly the strings with:
  - no whitespace;
  - exactly one `@`, with a non-empty local part before it;
  - a domain after it that contains a `.` which is neither the domain's first nor its last character.

Some behaviour follows from the code but not from its declared types:

- **Invitee status.** The store gives every invitee it creates (sample or new) the status `'invited'`. The declared `Invitee` type allows only `'Going' | 'Maybe' | 'Not Going' | 'Pending'`. So the details page's tally is zero in every column for every event created locally (`EventDetails.CreatedEventOnPage`).
- **Attendance values.** The store writes the RSVP values `'going'`, `'maybe'` and `'not_going'`. The declared `attendanceStatus` type says `'Going' | 'Maybe' | 'Not Going'`. The model follows the code: invitee statuses are kept as raw strings, and attendance is the three values the store writes.
- **Padded addresses.** The event form trims an e-mail before checking its syntax. The invitee table checks the text as typed; only its emptiness and duplicate checks use the trimmed text. So `" a@b.co"` is accepted by the form but refused by the table as "Please enter a valid email address" (`InviteeTable.PaddedAddressRefused`). Because a valid address has no blanks, the table always sends the text exactly as typed.

## Model

| member | source | states |
|---|---|---|
| Text.Trim | src/app/components/create-event/create-event.ts:181 | `trim`: the result is empty exactly when the input is all whitespace; otherwise it starts and ends with a non-whitespace character and is no longer than the input |
| Text.TrimIsFlankedSlice | src/app/components/event-invitee-table/event-invitee-table.ts:30 | the trimmed text occurs in the input at some index, with only whitespace before and after it |
| Text.TrimKeepsUnspaced | src/app/components/event-invitee-table/event-invitee-table.ts:41 | a text without whitespace is left unchanged by `trim` |
| Text.TrimIdempotent | src/app/components/create-event/create-event.ts:181 | trimming twice gives the same as trimming once |
| Text.IncludesAt | src/app/services/local-storage.service.ts:175 | `email.includes(user)` holds exactly when the user name occurs at some index of the e-mail |
| Text.DecimalRoundTrip | src/app/services/local-storage.service.ts:134 | the decimal rendering of `Date.now()` in a token reads back as the same number |
| Email.ValidEmailIff | src/app/components/create-event/create-event.ts:168-174 | the e-mail pattern matches exactly the strings described above (no whitespace, one `@`, non-empty local part, a domain with an inner `.`) |
| Email.ValidEmailIsTrimmed | src/app/components/event-invitee-table/event-invitee-table.ts:95-98 | an address the pattern accepts has no whitespace, so trimming leaves it unchanged |
| Email.IsValidEmail | src/app/components/create-event/create-event.ts:168-174 | `emailRegex.test(email)`: the pattern run as an automaton over the whole text; `Email.ValidEmailIff` gives its meaning |
| EventModel.Emails | src/app/components/create-event/create-event.ts:432 | `invitees.map(i => i.email)`: same length, and each position holds that invitee's e-mail |
| Sequences.Without | src/app/components/create-event/create-event.ts:220 | `filter(e => e !== email)`: keeps the order, removes every copy of the e-mail, and keeps every other e-mail as many times as before; a list without the e-mail is returned unchanged |
| Sequences.Minus | src/app/components/create-event/create-event.ts:524-526 | `a.filter(y => !b.includes(y))`: keeps the order and holds exactly the elements of `a` that are not in `b`, each as many times as in `a` |
| Sequences.MinusSelf | src/app/components/create-event/create-event.ts:524-526 | a list minus itself is empty |
| Sequences.SubsequenceNoDuplicates | src/app/components/create-event/create-event.ts:220 | filtering a duplicate-free list leaves it duplicate-free |
| LocalStorage.EventStatusOf | src/app/services/local-storage.service.ts:188-193 | 'upcoming' exactly when the date parses and is today or later; otherwise 'past' |
| LocalStorage.StoredEvents | src/app/services/local-storage.service.ts:116-119 | an empty events key reads as no events; otherwise the stored collection |
| LocalStorage.PastStaysPast | src/app/services/local-storage.service.ts:188-193 | an event that is past today is past on every later day |
| LocalStorage.WithStatus | src/app/services/local-storage.service.ts:163-166 | every stored event in its position, with only `status` replaced by the one derived from its date |
| LocalStorage.FilterByRole | src/app/services/local-storage.service.ts:169-177 | the role filter keeps the order and keeps exactly the events that match: organizer id equal to the user, or for attendees not organized by the user and either some invitee e-mail containing the user name or role 'attendee' |
| LocalStorage.EventsByRole | src/app/services/local-storage.service.ts:159-177 | the role list is a subsequence of the stored events with recomputed status, and holds exactly those that match the role |
| LocalStorage.ListedStatusIsCurrent | src/app/services/local-storage.service.ts:159-183 | every event `getEventsByRole` lists carries the status derived from its date |
| LocalStorage.OrganizerListExact | src/app/services/local-storage.service.ts:170-171 | the organizer list holds exactly the stored events whose organizer id is the user, with status recomputed |
| LocalStorage.RoleListsDisjoint | src/app/services/local-storage.service.ts:170-176 | no event is in both the organizer list and the attendee list of the same user |
| LocalStorage.RoleListsFitStore | src/app/services/local-storage.service.ts:169-177 | together the two role lists hold at most as many events as are stored |
| LocalStorage.FirstIndexOf | src/app/services/local-storage.service.ts:249 | `findIndex`: the first index whose id matches, or none exactly when no event has the id |
| LocalStorage.FindEvent | src/app/services/local-storage.service.ts:198-204 | `find`: the first stored record with the id, unchanged; the error "Event not found" exactly when no record has the id |
| LocalStorage.ToInvitees | src/app/services/local-storage.service.ts:216-219 | each request e-mail in order becomes an invitee with that e-mail and status 'invited' |
| LocalStorage.NewEvent | src/app/services/local-storage.service.ts:221-232 | the new record has the fresh id, the request's title, date, location and description, no time and no attendance. Its organizer is the user with role 'organizer', its status is derived from the date, and it has invitees exactly when the request has, as 'invited' |
| LocalStorage.InviteeEmailsRoundTrip | src/app/services/local-storage.service.ts:216-219 | reading the e-mails back from the created invitees gives the request's list |
| LocalStorage.LookupAfterCreate | src/app/services/local-storage.service.ts:234 | after appending an event whose id is new, a lookup of that id finds it at the end |
| LocalStorage.CreatedEventListedLast | src/app/services/local-storage.service.ts:221-235 | a created event appears last in its creator's organizer list |
| LocalStorage.WithStatusAppend | src/app/services/local-storage.service.ts:163-166 | recomputing statuses commutes with appending one event |
| LocalStorage.FilterAppend | src/app/services/local-storage.service.ts:169-177 | filtering commutes with appending one event |
| LocalStorage.RemoveAt | src/app/services/local-storage.service.ts:260 | `splice(k, 1)`: the events before `k` stay in place and those after move down by one |
| LocalStorage.DeletedIdIsGone | src/app/services/local-storage.service.ts:247-261 | when ids are unique, after deleting the event with an id no event has that id, and ids stay unique |
| LocalStorage.RemoveAtMultiset | src/app/services/local-storage.service.ts:260 | deleting removes exactly one record and keeps all the others |
| LocalStorage.AttendanceKeepsRole | src/app/services/local-storage.service.ts:283 | recording an RSVP never moves an event between the organizer and attendee lists |
| LocalStorage.SampleEvents | src/app/services/local-storage.service.ts:32-86 | four sample events with the generated ids, each hard-coded status agreeing with the status derived from its date (5, 10 and 30 days ahead; 5 days back) |
| LocalStorage.AuthenticateUser | src/app/services/local-storage.service.ts:131-140 | accepts any credentials; answers the user name, the e-mail `<username>@example.com`, and a token starting `local_token_<username>_` |
| LocalStorage.RegisterUser | src/app/services/local-storage.service.ts:145-154 | accepts any input; echoes the name and the e-mail; the token is built as at login |
| LocalStorage.TokenRoundTrip | src/app/services/local-storage.service.ts:134 | the user name and the time stamp can be read back from a token, whatever the name contains |
| LocalStorage.SessionToken | src/app/services/local-storage.service.ts:134 | `local_token_<username>_` followed by the decimal rendering of the time stamp |
| LocalStorage.LocalStorageService.constructor | src/app/services/local-storage.service.ts:15-27 | starts on the stored keys and seeds the sample events exactly when the events key reads empty |
| LocalStorage.LocalStorageService.SaveEvents | src/app/services/local-storage.service.ts:124-126 | the whole collection is written under the events key |
| LocalStorage.LocalStorageService.InitializeSampleData | src/app/services/local-storage.service.ts:22-27 | seeds the sample events only when the store reads empty; otherwise the key is unchanged |
| LocalStorage.LocalStorageService.GetEventsByRole | src/app/services/local-storage.service.ts:159-183 | answers the role list of the stored events with statuses recomputed, as a subsequence of them; writes nothing |
| LocalStorage.LocalStorageService.GetEventById | src/app/services/local-storage.service.ts:198-207 | answers the first stored record with the id, or "Event not found" |
| LocalStorage.LocalStorageService.CreateEvent | src/app/services/local-storage.service.ts:212-242 | appends the new record. It has the fresh id, the request's fields, the user as organizer, role 'organizer', the derived status and the invitees as 'invited'. The records before it are unchanged |
| LocalStorage.LocalStorageService.DeleteEvent | src/app/services/local-storage.service.ts:247-265 | "Event not found" or "Only the organizer can delete this event" with storage untouched; otherwise exactly the first record with the id is removed |
| LocalStorage.LocalStorageService.UpdateAttendanceStatus | src/app/services/local-storage.service.ts:270-288 | "Event not found" with storage untouched; otherwise only the first matching record's attendance changes, whoever the user is |
| LocalStorage.LocalStorageService.ClearAllData | src/app/services/local-storage.service.ts:293-298 | all three keys are removed, then the events key is seeded with the sample events |
| CreateEvent.OrAbsent | src/app/components/create-event/create-event.ts:347-349 | `value \|\| undefined`: absent exactly when the text is empty, otherwise the text itself |
| CreateEvent.CreateRequestFrom | src/app/components/create-event/create-event.ts:341-353 | the create request carries the title and date, a location and description absent exactly when blank, and the invitee list, absent exactly when it is empty |
| CreateEvent.UpdateRequestFrom | src/app/components/create-event/create-event.ts:463-473 | the update request carries the title and date, and a location and description absent exactly when blank |
| CreateEvent.AddedInvitees | src/app/components/create-event/create-event.ts:524 | a subsequence of the current list holding exactly its e-mails not in the loaded list |
| CreateEvent.RemovedInvitees | src/app/components/create-event/create-event.ts:526 | a subsequence of the loaded list holding exactly its e-mails no longer in the current list |
| CreateEvent.AddCalls | src/app/components/create-event/create-event.ts:532-536 | one `addInvitee` call per e-mail, in order, all for the event id |
| CreateEvent.RemoveCalls | src/app/components/create-event/create-event.ts:539-543 | one `removeInvitee` call per e-mail, in order, all for the event id |
| CreateEvent.InviteeCalls | src/app/components/create-event/create-event.ts:524-543 | the add calls for the added e-mails, then the remove calls for the removed ones; an add call for an e-mail exactly when it is listed now and was not loaded, a remove call exactly when it was loaded and is no longer listed; every call is for the event |
| CreateEvent.BuildCalls | src/app/components/create-event/create-event.ts:529-543 | the two `forEach` loops push exactly the add calls, then the remove calls |
| CreateEvent.InviteeDiffReconstructs | src/app/components/create-event/create-event.ts:524-526 | the added and removed e-mails are the two set differences of the lists; removing the removed ones from the old list and adding the added ones yields the same set of e-mails as the current list |
| CreateEvent.DiffHasNoDuplicates | src/app/components/create-event/create-event.ts:532-543 | with duplicate-free lists, no e-mail gets two add calls or two remove calls |
| CreateEvent.UnchangedListNoCalls | src/app/components/create-event/create-event.ts:519-548 | an edit that leaves the list as loaded issues no invitee calls |
| CreateEvent.SubmittedEventShape | src/app/components/create-event/create-event.ts:341-353 | the event the local store creates from a submitted form has no invitees field exactly when the list was empty; otherwise it has the form's e-mails in order, all 'invited'. It has no location or description exactly when those were blank |
| CreateEvent.CreateEventComponent.constructor | src/app/components/create-event/create-event.ts:30-83 | empty controls, no messages, create mode, no invitees, dialog closed |
| CreateEvent.CreateEventComponent.OnRouteParams | src/app/components/create-event/create-event.ts:97-109 | a non-empty `id` parameter switches to edit mode and asks for that event; any other route changes nothing |
| CreateEvent.CreateEventComponent.OnEventDetailsLoaded | src/app/components/create-event/create-event.ts:413-437 | fills the controls, with an absent time becoming ''; the re-run validators drop the `pastDate` error and give their verdict on the loaded values; the invitee list and its loaded copy are replaced only when the event has invitees |
| CreateEvent.CreateEventComponent.OnEventDetailsFailed | src/app/components/create-event/create-event.ts:440-446 | sets "Failed to load event details" |
| CreateEvent.CreateEventComponent.SetDate | src/app/components/create-event/create-event.ts:240-244 | a user edit of the date control: the new date, the `pastDate` error dropped and the validators' verdict taken |
| CreateEvent.CreateEventComponent.AddInvitee | src/app/components/create-event/create-event.ts:177-215 | the trimmed input is refused as empty, then as invalid, then as already added, each time with its message and the list unchanged; otherwise it is appended and the input cleared; the list stays duplicate-free |
| CreateEvent.CreateEventComponent.RemoveInvitee | src/app/components/create-event/create-event.ts:218-222 | every copy of the e-mail leaves the list and the rest keep their order; the list stays duplicate-free |
| CreateEvent.CreateEventComponent.ValidateDate | src/app/components/create-event/create-event.ts:227-248 | the `pastDate` error is set exactly when the date parses and is before today; it is never cleared here |
| CreateEvent.CreateEventComponent.Dispatched | src/app/components/create-event/create-event.ts:293-301 | what the submit sends: the create request built from the form outside edit mode; in edit mode the update for the event id, or nothing when the id is empty |
| CreateEvent.CreateEventComponent.Dispatch | src/app/components/create-event/create-event.ts:319-327 | sends what `Dispatched` says; marks submitting and clears the error exactly when something is sent |
| CreateEvent.CreateEventComponent.OnSubmit | src/app/components/create-event/create-event.ts:253-305 | an invalid form only marks its controls; a past date only gets flagged; with invitees the confirm dialog opens; otherwise the update (edit mode) or the create request goes out, and a create sent from here has no invitees |
| CreateEvent.CreateEventComponent.CancelConfirm | src/app/components/create-event/create-event.ts:308-312 | closes the confirm dialog |
| CreateEvent.CreateEventComponent.ConfirmSubmit | src/app/components/create-event/create-event.ts:315-329 | closes the dialog and sends the update or the create request, as the mode says |
| CreateEvent.CreateEventComponent.SubmitEvent | src/app/components/create-event/create-event.ts:332-353 | marks the form as submitting, clears the error, and sends title, date, location and description (blank ones absent) and the invitees (absent when none); the time is not sent |
| CreateEvent.CreateEventComponent.OnCreateResponse | src/app/components/create-event/create-event.ts:356-386 | success shows "Event created successfully!"; failure shows the server's message, or the default one, and ends submitting |
| CreateEvent.CreateEventComponent.UpdateEvent | src/app/components/create-event/create-event.ts:453-473 | without an event id nothing is sent and nothing changes; otherwise marks submitting and sends the update for that id |
| CreateEvent.CreateEventComponent.OnUpdateResponse | src/app/components/create-event/create-event.ts:478-514 | success issues exactly the invitee calls of the diff (none without an event id); failure issues none, shows the server's message or the default one, and ends submitting |
| CreateEvent.CreateEventComponent.HandleInviteeUpdates | src/app/components/create-event/create-event.ts:519-548 | none without an event id; otherwise exactly `InviteeCalls`: one add call for each e-mail not in the loaded list, in order, then one remove call for each loaded e-mail no longer listed |
| CreateEvent.CreateEventComponent.OnInviteeUpdatesSettled | src/app/components/create-event/create-event.ts:484-500 | all calls succeeded: "Event updated successfully!"; any failed: "Event updated, but failed to update some invitees." and submitting ends |
| InviteeTable.StatusClass | src/app/components/event-invitee-table/event-invitee-table.ts:100-102 | the class is `status-` followed by the status, which can be read back from it |
| InviteeTable.StatusClassInjective | src/app/components/event-invitee-table/event-invitee-table.ts:100-102 | two statuses get the same class exactly when they are equal |
| InviteeTable.PaddedAddressRefused | src/app/components/event-invitee-table/event-invitee-table.ts:35-38 | a text that starts or ends with whitespace fails the validity check, since that check looks at the text as typed |
| InviteeTable.EventInviteeTable.constructor | src/app/components/event-invitee-table/event-invitee-table.ts:15-24 | the inputs as given, an empty add form and the confirmation closed |
| InviteeTable.EventInviteeTable.AddInvitee | src/app/components/event-invitee-table/event-invitee-table.ts:28-49 | a request is sent exactly when the typed text is a valid address not yet listed, and then the typed text itself is sent. Otherwise the error is: "Please enter an email address" for blank text, "Please enter a valid email address" for invalid text, "This invitee already exists" for a listed address |
| InviteeTable.EventInviteeTable.OnAddResult | src/app/components/event-invitee-table/event-invitee-table.ts:50-60 | adding ends either way; success clears the input and fires `inviteeChanged`; failure sets "Failed to add invitee. Please try again." |
| InviteeTable.EventInviteeTable.ConfirmRemoveInvitee | src/app/components/event-invitee-table/event-invitee-table.ts:63-66 | remembers the e-mail and opens the confirmation |
| InviteeTable.EventInviteeTable.RemoveInvitee | src/app/components/event-invitee-table/event-invitee-table.ts:68-74 | nothing without a remembered e-mail; otherwise marks removing, clears the error and sends the remove request |
| InviteeTable.EventInviteeTable.OnRemoveResult | src/app/components/event-invitee-table/event-invitee-table.ts:75-87 | the confirmation closes either way; success forgets the e-mail and fires `inviteeChanged`; failure keeps it and sets "Failed to remove invitee. Please try again." |
| InviteeTable.EventInviteeTable.CancelDelete | src/app/components/event-invitee-table/event-invitee-table.ts:90-93 | closes the confirmation and forgets the e-mail |
| EventDetails.CountStatus | src/app/components/event-details-page/event-details-page.ts:89-98 | the number of invitees with exactly that status: at most the list length, and zero exactly when no invitee has it |
| EventDetails.CountUntallied | src/app/components/event-details-page/event-details-page.ts:91-97 | the number of invitees outside the three labels: zero exactly when every status is one of them |
| EventDetails.TallyPartition | src/app/components/event-details-page/event-details-page.ts:89-98 | each invitee is counted at most once; the three counts cover the list exactly when every status is "Going", "Maybe" or "Not Going" |
| EventDetails.StoreInviteesCountNowhere | src/app/components/event-details-page/event-details-page.ts:91-97 | invitees created by the local store ('invited') count in none of the three columns |
| EventDetails.CreatedEventOnPage | src/app/components/event-details-page/event-details-page.ts:63-66 | an event the local store created carries the stored role 'organizer', which the lookup returns to every viewer, so the page shows every viewer as organizer; it tallies zero everywhere |
| EventDetails.EventDetailsPage.constructor | src/app/components/event-details-page/event-details-page.ts:25-35 | no event, loading, no error, modal closed, all counts zero |
| EventDetails.EventDetailsPage.OnRouteParams | src/app/components/event-details-page/event-details-page.ts:43-50 | remembers the route id and starts loading it |
| EventDetails.EventDetailsPage.LoadEvent | src/app/components/event-details-page/event-details-page.ts:52-58 | marks loading, clears the error and asks for the current id; `onRsvpChanged` and `refreshEvent` do just this |
| EventDetails.EventDetailsPage.CalculateAttendanceSummary | src/app/components/event-details-page/event-details-page.ts:77-101 | without an event or an invitee list the counts keep their old values; otherwise each count is the number of invitees with its label |
| EventDetails.EventDetailsPage.OnLoadResult | src/app/components/event-details-page/event-details-page.ts:59-68 | shows the event and ends loading; organizer exactly when the role is 'organizer'. The counts are recomputed, and they add up to at most the number of invitees |
| EventDetails.EventDetailsPage.OnLoadFailed | src/app/components/event-details-page/event-details-page.ts:69-73 | sets "Failed to load event. Please try again." and ends loading |
| EventDetails.EventDetailsPage.OnDeleteEvent | src/app/components/event-details-page/event-details-page.ts:113-115 | opens the delete confirmation |
| EventDetails.EventDetailsPage.ConfirmDelete | src/app/components/event-details-page/event-details-page.ts:117-120 | asks to delete the current event, and sends nothing when the id is empty |
| EventDetails.EventDetailsPage.OnDeleteResult | src/app/components/event-details-page/event-details-page.ts:121-129 | success goes to the dashboard and changes nothing else; failure sets "Failed to delete event. Please try again." and closes the confirmation |
| EventDetails.EventDetailsPage.CancelDelete | src/app/components/event-details-page/event-details-page.ts:132-134 | closes the delete confirmation |

## Left out

- `EventService` (HTTP calls to the real backend, its fallback to the local store, the interceptor, `AuthService`) is not part of this model. The components' service calls appear only as the requests they send and the answers they receive.
- The task models, the search and the dashboard, login and signup components are not part of this model.
- Browser storage serialisation: `JSON.stringify`/`JSON.parse` are taken to round-trip, so the events key holds the collection itself. The users and current-user keys are only removed, never read, so their values are opaque.
- `generateId`, `Date.now()` and `Math.random()` are parameters (`freshId`, `sampleIds`, `now`). The model makes no claim that generated ids are unique; `LookupAfterCreate` assumes the new id is not already stored.
- `getFutureDate`/`getPastDate` and date parsing are day arithmetic on `today`. Time zones and the ISO string format are not modelled.
- The `rxjs` `delay`, `setTimeout`-based navigation, `window.scrollTo` and console logging are left out. So is `cancel`, which only navigates.
- LocalStorage.LocalStorageService.DeleteEvent: the source throws synchronously for an unknown id or a user who is not the organizer, rather than returning an erroring observable; the model returns that error as a `Failure` outcome.
- LocalStorage.LocalStorageService.UpdateAttendanceStatus: the source throws synchronously for an unknown id; the model returns that error as a `Failure` outcome.
- When the event service runs on the local store (src/app/services/event.service.ts:79, :130, :159) it returns the store's call directly, so the throw escapes the component's method. Then `EventDetails.EventDetailsPage.OnLoadFailed`, `EventDetails.EventDetailsPage.OnDeleteResult(false)` and `CreateEvent.CreateEventComponent.OnEventDetailsFailed` never run, and the details page stays loading. In the fallback mode the store is called inside `catchError`, so the throw becomes an error notification and those handlers do run.
- CreateEvent.CreateEventComponent.UpdateEvent: the model treats the `updateEvent` call as issued and answered. The `EventService` in src/app/services/event.service.ts defines no `updateEvent`, so the call at create-event.ts:478 would throw a `TypeError` after `isSubmitting` is set and the error cleared, leaving the form submitting. `OnUpdateResponse`, `HandleInviteeUpdates` and `OnInviteeUpdatesSettled` model the answer the service is meant to give.
- CreateEvent.CreateEventComponent.OnUpdateResponse: never reached with the service shown, for the reason above; it models the intended success and error callbacks.
- CreateEvent.CreateEventComponent.HandleInviteeUpdates: the model issues every call. With the service shown, each `addInvitee`/`removeInvitee` call would fail as described for the invitee table below; in local-storage mode the first call throws and stops the `forEach`, and the promise rejects, so `OnInviteeUpdatesSettled(false)` is the outcome.
- InviteeTable.EventInviteeTable.AddInvitee: the model treats the request as sent and answered. In local-storage mode `EventService.addInvitee` calls `localStorageService.addInvitee` (event.service.ts:201), which `LocalStorageService` does not define; the `TypeError` escapes `addInvitee` and leaves `isAdding` true.
- InviteeTable.EventInviteeTable.OnAddResult: in local-storage mode it never runs, for the reason above. In the fallback mode the same missing call is made inside `catchError` (event.service.ts:213), so the `TypeError` becomes an error notification and `OnAddResult(false)` runs. It models the callbacks the service is meant to trigger.
- InviteeTable.EventInviteeTable.RemoveInvitee: the same holds for `localStorageService.removeInvitee` (event.service.ts:231): in local-storage mode the `TypeError` escapes `removeInvitee` and leaves `isRemoving` true and the confirmation open.
- InviteeTable.EventInviteeTable.OnRemoveResult: in local-storage mode it never runs; in the fallback mode (event.service.ts:242) it runs with `false`. It models the callbacks the service is meant to trigger.
- LocalStorage.LocalStorageService.GetEventById: the source throws synchronously for an unknown id rather than returning an erroring observable; the model returns that error as a `Result`.
- LocalStorage.LocalStorageService.CreateEvent: the record's `time` is always absent, because `CreateEventRequest` has no time field and the form never sends one.
- The store never checks that `sampleIds` has four entries; the model requires four because `seedSampleData` always builds four events.
- CreateEvent.CreateEventComponent.OnSubmit: Angular's `required` and `maxLength` validators are the flag `fieldsValid` rather than checks on the control values. The per-control `markAsTouched` is one flag, `touched`.
- `setMinDate` only sets a DOM attribute, and `hasError` only reads the form's error state; both are left out. `SetDate` stands for a user edit of the date control, which re-runs its validators and so drops the `pastDate` error.
- CreateEvent.CreateEventComponent.OnEventDetailsLoaded: an absent location or description is loaded as `''`, where Angular stores `undefined`. Both become absent again when the form is submitted.
- CreateEvent.CreateEventComponent.OnInviteeUpdatesSettled: `Promise.all` is reduced to one flag saying whether every invitee call succeeded. The order in which the calls complete is not modelled.
- Event ids are strings. The declared `string | number` id type is not modelled, nor JavaScript's loose comparison between the two.
- The server error passed to `OnCreateResponse`/`OnUpdateResponse` is the text of `error.error`; a non-string error body is not modelled.
