# doc-talk-connect: a verified model of the booking front end's decision rules

doc-talk-connect is a patient-facing web application for booking doctors. It is a thin React
front end over a hosted database and auth service. Every data operation is a single select,
insert or update. The rules that matter live in the views and in the data-layer wrappers:

- the directory's name and specialty filter;
- the appointment list's cancel action and status badges;
- the booking dialog's guards and the appointment it creates;
- the profile editor's seeding and update payload;
- the data layer's row reshaping, owner stamping and status-only cancel.

This project models those rules in Dafny and proves what the code promises about them.

Structure: one module per view and one for src/lib/api.ts, plus four shared modules
(`Wrappers`, `Text`, `Store`, `Ui`):

- `Wrappers` (wrappers.dfy): `Option` and `Result`. A rejected promise is `Err(message)`.
- `Text` (text.dfy): ASCII `toLowerCase` and `includes`. `includes` is proved equal to its
  positional definition.
- `Api` (api.dfy), for `src/lib/api.ts`: the record types and the status and channel
  enumerations. It also holds the pure reshaping done by `getDoctors`, `getUserAppointments` and
  `createAppointment`, and `MarkCancelled`. `MarkCancelled` is the status-only update. The store
  applies it on cancel and the list view applies it as its optimistic patch.
- `Store` (store.dfy): the hosted store as a `Backend` object, holding the appointments table and
  the session user. `createAppointment` and `cancelAppointment` are methods on it. The store's
  success or failure is a parameter (`storeError`), because the model cannot decide it.
- `Ui` (ui.dfy): a view's observable effects, returned as a trace. These are navigation,
  success/error notifications, and requests to the data layer.
- `DoctorsPage`, `AppointmentsPage`, `DoctorDetailPage`, `ProfilePage`: the four views. The
  directory is pure: a state value and functions. The other three are classes whose fields are
  the component's `useState` cells. Each user-triggered handler with one `await` (cancel, book,
  save) is split in two. `Begin*` covers the steps before the await and `Finish*` the steps after
  it. A `Handle*` method runs both around the store call, or around a reply given as a parameter.
  This split makes "the flag is set while the call is in flight" something a contract can state.
  The fetches on mount are single steps (`AppointmentsView.Mount`, `ProfileView.Mount`,
  `DoctorsPage.Loaded`) that take the reply as a parameter.

Three behaviours of the code that the model keeps as written:

- The specialty filter lower-cases both sides before comparing (src/pages/Doctors.tsx:36), so it
  ignores letter case.
- The in-flight marker for cancellation is a single id, `cancelingId`
  (src/pages/Appointments.tsx:25, 51). A second cancel replaces it.
- Without a user, the appointment list and the profile view redirect to sign-in and stay in
  their loading state.

## Model

| member | source | states |
|---|---|---|
| `Api.ParseStatus` | src/lib/api.ts:26 | exactly the four status names are recognised; a recognised text is that status's name |
| `Api.StatusRoundTrip` | src/lib/api.ts:26 | naming a status and reading it back gives the same status |
| `Api.ParseConsultType` | src/lib/api.ts:27 | exactly video, voice, chat and in-person are recognised; a recognised text is that channel's name |
| `Api.ConsultTypeRoundTrip` | src/lib/api.ts:27 | naming a channel and reading it back gives the same channel |
| `Api.GetDoctors` | src/lib/api.ts:43-55 | a store error is re-raised; otherwise the returned data, with null read as the empty list |
| `Api.WithDoctor` | src/lib/api.ts:88-95 | `doctorName`/`doctorSpecialty` are the joined doctor's name and specialty and are absent without a join; every stored column is copied unchanged |
| `Api.WithDoctors` | src/lib/api.ts:88 | one output per fetched row, same length, same order, each the reshaped row |
| `Api.GetUserAppointments` | src/lib/api.ts:73-96 | a store error is re-raised; otherwise null is read as no rows and each row is reshaped in order |
| `Api.OwnerStamped` | src/lib/api.ts:106-111 | the inserted row's owner is the session user's id and its id the store's; every caller field is carried over |
| `Api.MarkCancelled` | src/pages/Appointments.tsx:54-56 | same length and order; rows with the id get status cancelled; only the status field of those rows may differ; all other rows are unchanged |
| `Api.MarkCancelledIdempotent` | src/pages/Appointments.tsx:54 | applying the cancel patch twice equals applying it once |
| `Api.ApplyProfilePatch` | src/lib/api.ts:174-179 | the store's partial update: written fields replaced, absent fields and the id kept |
| `Text.ToLower` | src/pages/Doctors.tsx:35 | same length; each upper-case ASCII letter becomes its lower-case partner (code point + 32); every other character is kept; no upper-case letter is left |
| `Text.SameUpToCaseLowersEqual` | src/pages/Doctors.tsx:35-36 | two texts that differ only in the case of their letters lower-case to the same text |
| `Text.ContainsIffOccurs` | src/pages/Doctors.tsx:35 | the modelled `includes` holds exactly when the text occurs at some position (both directions) |
| `Store.Backend.CreateAppointment` | src/lib/api.ts:98-125 | no session user: "User not authenticated" and nothing inserted; store error: re-raised, nothing inserted; else exactly the owner-stamped row is appended and returned, owned by the session user |
| `Store.Backend.CancelAppointment` | src/lib/api.ts:147-157 | store error: re-raised, table unchanged; else the table becomes `MarkCancelled` of the old table (status-only, matching id only) |
| `DoctorsPage.Initial` | src/pages/Doctors.tsx:13-16 | no doctors, loading, empty search and specialty |
| `DoctorsPage.Loaded` | src/pages/Doctors.tsx:19-32 | loading ends; on success the list is replaced, and a failure keeps it; filters untouched |
| `DoctorsPage.FilterDoctors` | src/pages/Doctors.tsx:34-38 | the result is an order-preserving subsequence of the input and every result passes the lower-cased name and specialty tests; each passing doctor occurs as often as in the input, and a failing one not at all |
| `DoctorsPage.FilterIgnoresCase` | src/pages/Doctors.tsx:35-36 | a search text or specialty choice that differs only in letter case lists the same doctors |
| `DoctorsPage.NoFiltersListsAll` | src/pages/Doctors.tsx:35-36 | with empty search and empty specialty the filtered list is the whole list |
| `DoctorsPage.ClearFilters` | src/pages/Doctors.tsx:89-92 | search and specialty become empty, nothing else changes, and the full list is shown again |
| `DoctorsPage.Distinct` | src/pages/Doctors.tsx:40 | no duplicates, and exactly the values of the input |
| `DoctorsPage.DistinctKeepsFirstOccurrenceOrder` | src/pages/Doctors.tsx:40 | the distinct values are ordered by their first occurrence in the input |
| `DoctorsPage.Specialties` | src/pages/Doctors.tsx:40 | no duplicates, exactly the specialties present, in first-occurrence order |
| `DoctorsPage.ExampleByName` | src/pages/Doctors.tsx:34-38 | of Sarah Johnson (Gynecologist) and Emily Chen (Mental Health Specialist), searching "sarah" keeps only the first |
| `DoctorsPage.ExampleBySpecialty` | src/pages/Doctors.tsx:36 | choosing "Gynecologist" keeps only the first of the two |
| `DoctorsPage.ExampleNoMatch` | src/pages/Doctors.tsx:34-38 | searching "emily" with specialty "Gynecologist" keeps neither |
| `AppointmentsPage.StatusColor` | src/pages/Appointments.tsx:66-79 | total: confirmed green, pending yellow, completed blue, cancelled red, and gray exactly for unrecognised text |
| `AppointmentsPage.StatusColorsDistinct` | src/pages/Appointments.tsx:66-79 | different statuses get different colours |
| `AppointmentsPage.TypeIcon` | src/pages/Appointments.tsx:81-94 | an icon exactly for the four channels, namely that channel's icon; nothing otherwise |
| `AppointmentsPage.ChannelIconsDistinct` | src/pages/Appointments.tsx:81-94 | different channels get different icons |
| `AppointmentsPage.ActionFor` | src/pages/Appointments.tsx:169-203 | the cancel dialog iff status is pending or confirmed; its confirm button disabled and reading "Cancelling..." iff this row is in flight; otherwise a disabled "Completed" for completed and "Cancelled" for anything else |
| `AppointmentsPage.CancelledRowIsTerminal` | src/pages/Appointments.tsx:169 | after the cancel patch a cancelled row offers no action, only a disabled "Cancelled" |
| `AppointmentsPage.AppointmentsView.constructor` | src/pages/Appointments.tsx:23-25 | empty list, loading, nothing in flight |
| `AppointmentsPage.AppointmentsView.Mount` | src/pages/Appointments.tsx:29-48 | no user: redirect to /auth, no request, state unchanged; else one fetch, list replaced on success or error toast on failure, loading ends |
| `AppointmentsPage.AppointmentsView.BeginCancel` | src/pages/Appointments.tsx:50-53 | the in-flight id becomes X, which disables the confirm button of X's row and of no other; the cancel call is issued |
| `AppointmentsPage.AppointmentsView.FinishCancel` | src/pages/Appointments.tsx:53-63 | success: list patched by `MarkCancelled`, success toast; failure: list unchanged, only an error toast; the in-flight id is cleared on both |
| `AppointmentsPage.AppointmentsView.HandleCancel` | src/pages/Appointments.tsx:50-64 | store and list are both patched on success and both unchanged on failure; the in-flight id is clear afterwards |
| `DoctorDetailPage.SplitTime` | src/pages/DoctorDetail.tsx:60 | splitting "HH:MM" gives two numbers in 0..99; which two is fixed by the two round trips below |
| `DoctorDetailPage.ClockText` | src/pages/DoctorDetail.tsx:60 | the two-digit text "HH:MM" of any hour and minute in 0..99 is well formed and splits back into that hour and minute |
| `DoctorDetailPage.ClockTextOfSplit` | src/pages/DoctorDetail.tsx:60 | every well-formed "HH:MM" text is the clock text of the numbers it splits into |
| `DoctorDetailPage.TimeSlotsAreHours` | src/pages/DoctorDetail.tsx:102 | seven slots, each the clock text of (hour, 0) for strictly ascending hours 9..16 without 12 |
| `DoctorDetailPage.DateOptions` | src/pages/DoctorDetail.tsx:82-87 | exactly seven consecutive days, today through today+6 |
| `DoctorDetailPage.BookingDraft` | src/pages/DoctorDetail.tsx:59-69 | status pending, the chosen channel, the route's doctor id, the chosen day at the slot's hour and minute, no other field |
| `DoctorDetailPage.BookingView.constructor` | src/pages/DoctorDetail.tsx:18-22 | type video, no date, time "", dialog closed, not submitting |
| `DoctorDetailPage.BookingView.SelectType` | src/pages/DoctorDetail.tsx:205-226 | the chosen channel is recorded; a chosen time stays an offered slot |
| `DoctorDetailPage.BookingView.SelectDate` | src/pages/DoctorDetail.tsx:94 | the chosen day is recorded; a chosen time stays an offered slot |
| `DoctorDetailPage.BookingView.SelectTime` | src/pages/DoctorDetail.tsx:109 | the chosen slot is recorded; a chosen time is always an offered slot |
| `DoctorDetailPage.BookingView.SetOpen` | src/pages/DoctorDetail.tsx:187 | the dialog's open state is recorded; a chosen time stays an offered slot |
| `DoctorDetailPage.BookingView.BeginBook` | src/pages/DoctorDetail.tsx:44-56 | no user: error toast and redirect to /auth, whatever the selections; then missing date or time: error toast; neither path sets the flag or issues a call; otherwise the flag is set and the draft requested; an enabled Book button (line 250) with a user always passes both guards |
| `DoctorDetailPage.BookingView.FinishBook` | src/pages/DoctorDetail.tsx:71-79 | success: dialog closed, success toast, navigate to /appointments; failure: dialog state kept, error toast; flag cleared on both |
| `DoctorDetailPage.BookingView.HandleBook` | src/pages/DoctorDetail.tsx:44-80 | a failed guard changes nothing anywhere; a submission inserts exactly one pending appointment of the chosen channel for this doctor, owned by the session user, when the store succeeds, and none otherwise |
| `ProfilePage.NamePatch` | src/pages/Profile.tsx:51-54 | the update carries first and last name and no other field |
| `ProfilePage.NamePatchWritesOnlyNames` | src/pages/Profile.tsx:51-54 | applied to any profile, the update writes the two names and keeps id and avatar |
| `ProfilePage.ProfileView.constructor` | src/pages/Profile.tsx:15-19 | no profile, loading, not saving, both names "" |
| `ProfilePage.ProfileView.Mount` | src/pages/Profile.tsx:23-44 | no user: redirect to /auth, no request, state unchanged; success: profile kept and names seeded, "" where absent; failure: error toast; loading ends |
| `ProfilePage.ProfileView.SetFirstName` | src/pages/Profile.tsx:100 | the first-name field takes the typed value |
| `ProfilePage.ProfileView.SetLastName` | src/pages/Profile.tsx:109 | the last-name field takes the typed value |
| `ProfilePage.ProfileView.BeginUpdate` | src/pages/Profile.tsx:46-54 | `saving` is set and one update with exactly the two name fields is issued |
| `ProfilePage.ProfileView.FinishUpdate` | src/pages/Profile.tsx:55-63 | success: the local profile becomes the returned record; failure: kept; `saving` cleared on both; name fields untouched |
| `ProfilePage.ProfileView.HandleUpdate` | src/pages/Profile.tsx:46-64 | one update request with the current names, then the reply applied as above, `saving` false afterwards |
| `ProfilePage.ProfileView.DeleteAccount` | src/pages/Profile.tsx:66-69 | always the "not implemented" error toast; no state change and no request |

## Left out

- The hosted store's query semantics are not modelled: `.order(...)`, `.single()`, and the
  row-level security that limits reads and updates to the session user's rows. The rows a query
  returns are an input (`Response`), and `CancelAppointment` updates every row with the id.
- `getDoctorById` and the doctor page's fetch, loading and not-found states
  (src/pages/DoctorDetail.tsx:26-42, 116-140) are out of the model. They are a fetch and
  rendering with no decision rule beyond "render not-found when null".
- `updateAppointment` (src/lib/api.ts:127-145) is not modelled. No view calls it.
- `getUserProfile` and `updateUserProfile` are modelled only through their replies, which are
  parameters. The profiles table is not part of `Store`.
- Store.Backend.CreateAppointment: returns the row as inserted. Columns the store fills in
  itself (`created_at`, `updated_at`) are not modelled, and neither are the re-typing casts on
  the returned record, which check nothing.
- The caller's draft type has no owner field, so an owner field cannot be passed in. In the
  source, `user_id` is written after the spread, so a stray owner field would be overridden.
  This model cannot express that override.
- Dates and times are abstract. A day is an integer offset and a time is an hour-minute pair.
  `addDays`, `format`, `parseISO`, `setHours` (which keeps the current seconds) and
  `toISOString` with its timezone shift are left out. `DateOptions` reads the clock once (its
  `today` parameter). The source calls `new Date()` afresh on each of the seven iterations
  (src/pages/DoctorDetail.tsx:85), so a render that spans midnight could skip or repeat a day.
- Ratings are carried as a value and never computed with: `toFixed(1)`, the star rule and
  `Math.floor(rating * 10)` are floating-point display.
- `toLowerCase` is modelled for ASCII letters only; Unicode case folding is left out.
- Logging is left out. Every store error and every caught exception is written to the console
  (`console.error`).
  - In the data layer, the error is then re-raised: src/lib/api.ts:50, 65, 83, 116, 136, 154,
    167, 182.
  - In the views, an error notification follows: src/pages/Appointments.tsx:40, 59,
    src/pages/DoctorDetail.tsx:34, 75, src/pages/Profile.tsx:36, 59.
  - The directory's failed fetch (src/pages/Doctors.tsx:24-25) is only logged. `DoctorsPage.Loaded`
    keeps the list and shows nothing.
  - Some paths do not log: the session check in `createAppointment` (src/lib/api.ts:102-104) and
    the view guards (no user, missing date or time).

  The model has no console, so the effect traces carry only navigation, notifications and
  requests.
- Rendering, JSX, CSS beyond the status colours, routing, and the toast library are not
  modelled. Navigation and toasts appear only as entries in the effect trace.
- Async interleaving is excluded, and each handler runs start to finish. This includes the stale
  `appointments` closure in the cancel handler, and overlapping cancels that overwrite the
  single in-flight id.
- The sign-out button (src/pages/Profile.tsx:143-150) only calls the auth provider, which is not
  part of this model.
- The presentational components, the emergency-alert placeholder, the navigation bar, the auth
  page and modal, and the doctor card's toast-only booking carry no model of their own.
- As written, src/pages/Appointments.tsx:84, 86, 88, 90 hold four-character texts for the icons:
  U+F8FF followed by three more characters, "üìπ" for the video icon. These texts are the Mac Roman
  reading of the UTF-8 bytes of the emoji U+1F4F9, U+1F4DE, U+1F4AC and U+1F3E5. The model
  (`AppointmentsPage.ChannelIcon`) uses those four emoji instead of the four-character texts.
