# MedFlow demo state machines in Dafny

MedFlow's sales page is a single-page React site. Its only logic sits in the
small UI state machines of the interactive demo and the page shell. This
project models them as immutable records with pure transition functions, and
proves their invariants:

- **Patient view** (`booking.dfy`, module `Booking`) holds the simulated queue
  counter, the appointment list and the five-step booking wizard:
  specialty, doctor, date, time, confirm. Every handler is a function of the
  state. `Rendered` says which controls are on screen at each step.
  `OnScreen`/`Run` describe what a user can reach by clicking.
- **Doctor view** (`doctor_view.dfy`, module `DoctorView`) covers:
  - the waiting and in-progress lists, which are filtered from the fixture;
  - the selected patient's waiting → in progress → completed status;
  - the pending medicines and attachments of the examination form;
  - the newest-first history list.

  The React effect keyed on the selected patient is modelled as `Commit`. It
  runs after every transition that replaces the selected patient.
- **Page shell** (`app.dfy`, module `App`) holds the uz/ru toggle, the mobile
  menu, and the demo role chosen by navigation links, hero buttons and the
  demo's own role buttons. It also holds the one-shot `Reveal` visibility flag.
- **Fixtures and dictionary** (`fixtures.dfy`, `translations.dfy`) hold the
  doctor, specialty and patient tables, transcribed from the source. They also
  hold each locale's translation key paths and the few locale strings the
  views copy into their state.
- **Helpers:**
  - `types.dfy` mirrors the entity types.
  - `seqs.dfy` has `Array.prototype.filter`.
  - `text.dfy` has JavaScript's `String.prototype.trim`. Its whitespace set
    follows sections 12.2 and 12.3 of ECMA-262.
  - `wrappers.dfy` has `Option`, the model's stand-in for `null` and `undefined`.

Behaviour the model pins down as the code has it:
- Going back does not clear the booking data. After backing out to the
  dashboard, the old choices are still held (`Booking.BackKeepsChoices`).
- The modal's guard is `!inputText`, so a note of spaces only is saved
  (`DoctorView.BlankNoteIsSaved`).
- Starting or finishing a visit changes only the selected copy of the
  patient. The lists are always recomputed from the fixture
  (`DoctorView.StartIsLocal`).
- The status change replaces the selected patient object, so the effect
  also runs then. Finishing a visit therefore discards any unsaved pending
  medicines and attachments (`DoctorView.StatusChange`).
- The specialty `count` column is a display figure. It never equals the
  number of doctors offered (`Booking.CountIsDisplayOnly`).
- The history list is one list shared by all patients. Switching patients
  keeps it (`DoctorView.HistoryOnlyGrows`).

Both locales define `addDiagnosis` and `writePrescription` labels
(constants.ts:76-77, 218-219), and the doctor view has a note modal saved by
`handleSaveModal`. But `handleAdd`, the only code that opens the modal, is
never attached to a control, so as written the modal cannot open (see
Findings).

## Model

| member | source | states |
|---|---|---|
| `Seqs.Filter` | components/Demo.tsx:689 | the filter's result holds only elements that pass the test, each taken from the input, and every passing input element appears in it |
| `Seqs.FilterAppend` | components/Demo.tsx:689 | filtering distributes over concatenation, so retained elements keep their fixture order |
| `Text.TrimStart` | components/Demo.tsx:169-170 | leading-whitespace removal yields a suffix of the input that begins with a non-whitespace character, and everything dropped is whitespace |
| `Text.TrimEnd` | components/Demo.tsx:169-170 | trailing-whitespace removal yields a prefix of the input that ends with a non-whitespace character, and everything dropped is whitespace |
| `Text.Trim` | components/Demo.tsx:169-170 | `trim()` returns a string no longer than its input that is empty or begins and ends with a non-whitespace character |
| `Text.TrimIsSlice` | components/Demo.tsx:169-170 | `trim()` returns the slice of the input that starts where its leading whitespace ends; everything outside the slice is whitespace |
| `Text.TrimEmptyIffBlank` | components/Demo.tsx:169 | `medicineInput.trim()` is falsy exactly when the input consists only of whitespace |
| `Fixtures.SpecialtyIdIsName` | constants.ts:323-328 | every specialty row has `id` equal to `name` |
| `Fixtures.IdsDistinct` | constants.ts:291-319 | doctor ids are 1..4 in order and pairwise distinct, and the patient ids are "1".."4" in order and pairwise distinct |
| `Booking.Initial` | components/Demo.tsx:643-657 | on mount there is one upcoming Kardiolog appointment dated by the given today label, the queue is at 3, notifications are off, the step is 0 and every booking field is null |
| `Booking.InitialInLocale` | components/Demo.tsx:643-645 | mounted in either locale the dashboard is valid and its appointment is dated by that locale's word for today; the two locales' mounted dashboards differ in that date and nowhere else: the rest of the state is equal, and so is the appointment with its date replaced |
| `Booking.QueueTick` | components/Demo.tsx:662 | one tick never yields a value below 1, and it strictly decreases any position above 1 |
| `Booking.QueueAfterTicks` | components/Demo.tsx:660-665 | from a position p ≥ 1, n ticks give max(p − n, 1), which is never below 1 |
| `Booking.QueueFromThree` | components/Demo.tsx:646 | from the initial 3, the counter shows 3, 2, 1 and then stays at 1 |
| `Booking.AvailableDoctors` | components/Demo.tsx:687-690 | with no specialty chosen there are no doctors; otherwise a doctor is offered exactly when it is a fixture doctor whose specialty string equals the chosen specialty's name |
| `Booking.DoctorsPerSpecialty` | constants.ts:315-328 | Kardiolog, Terapevt, Nevropatolog and Pediatr each offer exactly their one fixture doctor; Stomatolog and Dermatolog offer none |
| `Booking.CountIsDisplayOnly` | constants.ts:322-328 | no specialty's `count` equals the number of doctors the filter offers |
| `Booking.ResetBooking` | components/Demo.tsx:667-670 | the reset returns to step 0 with every field null and leaves the appointments, queue and notification switch alone |
| `Booking.ConfirmBooking` | components/Demo.tsx:672-685 | with doctor, date and time all truthy, the old list is kept as a prefix and exactly one upcoming appointment follows it, with the doctor's name and specialty, the date and the time; the wizard resets. Otherwise the state is unchanged |
| `Booking.Dispatch` | components/Demo.tsx:660-973 | the handler each patient-view control runs (timer tick 662, notification switch 769, booking button 730, back 813, the four pickers 840-842, 868-870, 901-903, 925-927, confirm 973); specified by `Booking.StepMoves`, `Booking.DispatchValid`, `Booking.ConfirmFromValid` and `Booking.BookedAsPicked` |
| `Booking.Rendered` | components/Demo.tsx:719-973 | which controls the JSX shows: dashboard controls at step 0 (719), back on every wizard step (809-813), the specialty, doctor, date and time lists at steps 1-4 (835, 857-865, 893, 917), confirm at step 5 (940); used by `Booking.DispatchValid`, `Booking.EmptySpecialtyOnlyBack` and `Booking.ReachableValid` |
| `Booking.InitialValid` | components/Demo.tsx:646-657 | the mounted state satisfies the wizard invariant |
| `Booking.DispatchValid` | components/Demo.tsx:809-980 | every on-screen event keeps the invariant. The invariant: step in 0..5; queue ≥ 1; step ≥ 2 ⇒ specialty set; step ≥ 3 ⇒ doctor set and of that specialty; step ≥ 4 ⇒ date set; step 5 ⇒ time set |
| `Booking.StepMoves` | components/Demo.tsx:813-927 | a selection at step k stores the picked specialty, doctor, date or time in field k, keeps the other fields and moves to k + 1; the booking button moves 0 to 1; back moves k to k − 1 and keeps the booking data; nothing else moves forward; only confirm touches the appointments, only the tick the queue, and only the switch the notification flag |
| `Booking.BookedAsPicked` | components/Demo.tsx:868-977 | picking a doctor, a date and a time and then confirming appends exactly one upcoming appointment carrying that doctor's name and specialty and the picked date and time, and resets the wizard |
| `Booking.ConfirmFromValid` | components/Demo.tsx:939-977 | confirming from a reachable step 5 always appends one appointment carrying the chosen doctor and the chosen specialty's name, and resets the wizard |
| `Booking.BackKeepsChoices` | components/Demo.tsx:813 | backing out from step 3 to the dashboard leaves specialty and doctor set |
| `Booking.EmptySpecialtyOnlyBack` | components/Demo.tsx:857-864 | choosing Stomatolog or Dermatolog leads to a doctor step where only back and the timer can act |
| `Booking.ReachableValid` | components/Demo.tsx:808-980 | every state reachable by on-screen events keeps the invariant, so step 5 always has specialty, doctor, date and time |
| `Booking.AppointmentsOnlyGrow` | components/Demo.tsx:682 | over any sequence of events the original appointments remain as a prefix of the list |
| `DoctorView.WaitingPatients` | components/Demo.tsx:100 | the waiting list holds exactly the fixture patients whose status is waiting |
| `DoctorView.CurrentPatients` | components/Demo.tsx:101 | the in-progress list holds exactly the fixture patients whose status is in progress |
| `DoctorView.InitialSelection` | components/Demo.tsx:104-106 | the initial selection is the first in-progress patient of the list; with none in progress, the first waiting one; with neither, the list's first patient |
| `DoctorView.Initial` | components/Demo.tsx:104-131 | on mount the selection is a fixture patient, the list view shows, the modal is closed, nothing is pending, and the examining flag matches the selection's status; the history holds a diagnosis described by the locale's complaint text followed by a lab entry titled by the locale |
| `DoctorView.InitialValid` | components/Demo.tsx:104-131 | the mounted view satisfies the view invariant that `DoctorView.ReachableValid` carries forward |
| `DoctorView.InitialInLocale` | components/Demo.tsx:111-122 | mounted in either locale the view is valid and its first history entry carries that locale's complaint text; the two locales' mounted views differ in the history texts and nowhere else: the rest of the state is equal, and so are the two entries with the diagnosis description and the lab title replaced |
| `DoctorView.InitialSelectsInProgress` | components/Demo.tsx:104-109 | only patient "2" is in progress, so it is selected on mount with the form showing |
| `DoctorView.Commit` | components/Demo.tsx:134-139 | the effect touches only the examining flag and the two pending lists; when the selected patient changes, the result satisfies the view invariant (the form shows exactly when the new patient is in progress) with both pending lists empty; with the same selection nothing changes |
| `DoctorView.SelectPatient` | components/Demo.tsx:141-146 | selecting another patient empties both pending lists, sets examining iff that patient is in progress, and keeps the history; a narrow screen shows the detail panel; nothing else changes |
| `DoctorView.StatusChange` | components/Demo.tsx:152-166 | waiting → in progress with the form open; in progress → completed with the form closed, pending lists dropped and the list view shown; a completed patient is left untouched; nothing else changes |
| `DoctorView.MedicineKey` | components/Demo.tsx:168-173 | Enter when the trimmed input is non-empty appends the trimmed text at the end and clears the input; any other key, or an input that trims to nothing, changes nothing (`Text.TrimEmptyIffBlank` turns the condition into "not whitespace only"); only the list and the input ever change |
| `DoctorView.AttachFile` | components/Demo.tsx:175-182 | one attachment of the clicked kind, carrying that kind's fixed name and the given date, is appended after the existing ones, and no other field of the state changes |
| `DoctorView.FileNamesDistinct` | components/Demo.tsx:176-180 | the three fixed attachment names are distinct |
| `DoctorView.OpenModal` | components/Demo.tsx:184-188 | the modal opens for the chosen kind with empty text; nothing else changes |
| `DoctorView.SaveModal` | components/Demo.tsx:190-202 | empty text is a no-op; any other text puts one note at the head (the old items follow in order) with the text as description, the given date, the kind-dependent title from the locale and the kind-dependent medicines field, and closes the modal; nothing else in the state changes |
| `DoctorView.SaveExamination` | components/Demo.tsx:204-220 | with both pending lists empty it is a no-op; otherwise one exam entry with the fixed title and description, the given date and both pending lists goes to the head, the old items follow in order, and both lists are emptied; nothing else in the state changes |
| `DoctorView.Dispatch` | components/Demo.tsx:251-489 | the handler each doctor-view control runs: patient rows, back, status button, save, attach buttons, medicine input and key, modal text, cancel and save; specified by `DoctorView.DispatchValid`, `DoctorView.HistoryOnlyGrows` and `DoctorView.NotesUnreachable` |
| `DoctorView.Rendered` | components/Demo.tsx:251-489 | the controls on screen as written: the rows of both lists, the status button unless completed, the examination form while examining (342), the modal's controls while it is open (468), and no control that opens the modal; used by `DoctorView.NotesUnreachable` |
| `DoctorView.RenderedIntended` | components/Demo.tsx:184-188 | the as-written controls plus buttons for the two quick notes while the modal is closed; used by `DoctorView.DispatchValid`, `DoctorView.ReachableValid` and `DoctorView.QuickDiagnosisWhenWired` |
| `DoctorView.DispatchValid` | components/Demo.tsx:133-139 | every on-screen event keeps the invariant: the form shows exactly while the selected visit is in progress, and nothing is pending while it is hidden |
| `DoctorView.HistoryOnlyGrows` | components/Demo.tsx:190-220 | every event either keeps the history or prepends exactly one item before the unchanged old items; only the two save actions can prepend |
| `DoctorView.BlankNoteIsSaved` | components/Demo.tsx:191 | a note consisting of one space is blank yet is saved |
| `DoctorView.StartIsLocal` | components/Demo.tsx:100-161 | after starting Malika Azizova's visit she is still listed as waiting; selecting her row again restores the waiting record and hides the form |
| `DoctorView.NotesUnreachable` | components/Demo.tsx:184-188 | as written the modal never opens, so every history entry a session adds is an exam |
| `DoctorView.QuickDiagnosisWhenWired` | components/Demo.tsx:184-202 | with the quick actions wired, opening the diagnosis modal, typing and saving prepends one diagnosis; the same clicks are impossible as written |
| `DoctorView.ReachableValid` | components/Demo.tsx:134-139 | every state reached by on-screen events keeps the view invariant |
| `DoctorView.OnScreenIsIntended` | components/Demo.tsx:184-188 | every click sequence possible on the page as written is possible once the quick actions are wired |
| `Translations.SameShape` | constants.ts:3 | each locale defines exactly the key paths of the shared structure, so a key found in one locale is found in the other; both locales' lists have equal lengths |
| `App.ToggleLang` | App.tsx:62-64 | the toggle always switches to the other locale |
| `App.ToggleLangTwice` | App.tsx:62-64 | toggling twice restores the language, and the other locale has every key of the current one |
| `App.NavClick` | App.tsx:87-99 | a link click always closes the mobile menu and keeps the language; it sets the role iff the link carries one and otherwise keeps it |
| `App.Dispatch` | App.tsx:62-144 | the language toggle, menu button, link clicks and the demo's role buttons; specified by `App.RoleChangesOnlyByChoice`, `App.RoutingTable` and `App.NoLinkSelectsDoctor` |
| `App.Rendered` | App.tsx:116-212 | the links on the page are the four navigation links and the two hero buttons; used by `App.RoleChangesOnlyByChoice` and `App.NoLinkSelectsDoctor` |
| `App.OnLoad` | App.tsx:56-58 | `InitialApp` is Uzbek with the menu closed and the admin dashboard shown, so on load the clinic-system link and primary hero button change nothing and the online-queue link switches to the patient app |
| `App.RoutingTable` | App.tsx:80-85 | clinic-system link and primary hero button → admin; online-queue link and secondary hero button → patient; features and why-us links keep the role |
| `App.RoleChangesOnlyByChoice` | App.tsx:87-93 | the role changes only through a role-carrying link or the demo's role buttons, and the language changes iff the toggle is pressed |
| `App.NoLinkSelectsDoctor` | App.tsx:80-85 | no page link selects the doctor dashboard; only the demo's doctor button does |
| `App.OnEntry` | App.tsx:22-26 | the visible flag never resets, and it turns on only for an intersecting entry while observed, which also ends the observation |
| `App.RevealOneShot` | App.tsx:17-27 | starting hidden and observed, the content is visible iff some entry intersected, and it is unobserved exactly when visible |
| `App.RevealNeverResets` | App.tsx:22-26 | once visible, the content stays visible whatever entries follow |

## Left out

- Rendering is left out: JSX, CSS classes, icons, the admin dashboard and the recharts charts are display only. A control counts as on screen when it is in the DOM. CSS-only hiding is ignored; for example, the list and detail panels are both present on wide screens.
- The timer and the observer are left out. `setInterval` scheduling becomes the abstract `Tick` event. `IntersectionObserver` callbacks become a sequence of booleans. The observer's threshold and margin are not modelled, and neither is `disconnect` on unmount.
- `scrollIntoView`, `preventDefault` and the window-width test are left out. The scroll has no state. The width test is the boolean `narrow` on `Select`.
- Clocks and calendars are left out. `Date.now()` ids and `toLocaleDateString` dates are opaque parameters. The five generated booking dates are opaque non-empty strings (`generateDates`, Demo.tsx:692-701).
- Doctor ratings (floats), revenue strings and translation texts are display data and are not represented. The only exceptions are the locale strings the views copy into their state.
- The static Telegram mock chat, the login button and the search box have no behaviour.
- Component lifetime is left out. Each view's state lives as long as the view is mounted. Switching roles remounts a view with fresh state, which is not modelled.
- `DoctorView.Commit`: React runs the effect when the selected patient object changes identity. The model compares values instead. Every selection reachable from this fixture is a different value exactly when it is a different object, because each status change alters the status.
- The queue's derived display figures (`queuePos * 15` minutes and the bar width) are display only.
- `App.RevealNeverResets`: states only that the flag stays on. From a state that is visible but still observed, a later entry ends the observation, so the state itself is not fixed.

## Findings

| source | as written | input that shows it | evidently intended | confidence | as-written member | corrected member |
|---|---|---|---|---|---|---|
| components/Demo.tsx:184-188 | `handleAdd`, the only code that opens the quick diagnosis/prescription modal, is never attached to a control, so the modal, its text box and `handleSaveModal` are unreachable | any click sequence from mount: the modal stays closed and no diagnosis or prescription entry is ever added | buttons for the `addDiagnosis` and `writePrescription` labels, which both locales define, calling `handleAdd` | medium, not executed | `DoctorView.NotesUnreachable` | `DoctorView.QuickDiagnosisWhenWired` |

The corrected control set is `DoctorView.RenderedIntended`. `DoctorView.DispatchValid` and `DoctorView.ReachableValid` are stated over it. It includes every control of the as-written page (`DoctorView.OnScreenIsIntended`), so both invariants also hold as written.
