# Routory shift registration, modelled in Dafny

This project models the decision logic of the Routory (MOUP) scheduling app's
shift screens:

- **Shift record assembly** (`ShiftRecords`): both registration screens turn a
  form snapshot into `CalendarEvent` records and push them into a create
  channel `(workplaceId, event)` or an edit channel
  `(workplaceId, eventId, event)`. A tap fails closed. If the date does not
  parse, nothing is emitted. If no user is signed in, nothing is emitted either.
  Owner mode emits exactly one record, for the signed-in user. Employee mode
  emits one record per selected worker, in order. These records are identical
  except for `createdBy`.
- **Owner screen** (`OwnerShiftRegistration`): a class holding the lock flag
  `isEdit`, the segment-driven `registrationMode` and the section visibility
  it switches, the right-bar button, and the two channels as sequences that
  the submit methods append to. The `workers.forEach` fan-out is a loop proved
  against `Register` / `Edit`.
- **Worker screen** (`WorkShiftRegistration`): the same lock, with no segment.
  Every record belongs to the signed-in user. Its register and edit taps are
  the owner-mode cases of `Register` / `Edit`.
- **Read/edit lock** (`ReadMode`): the right-bar button title, the register
  button title, and which submit action the register button is wired to.
- **Colour picker** (`ColorSelection`): the seven presets, the
  `selectedIndex` cursor, cell selection marks and the apply action.
- **Calendar event label** (`CalendarEventView`): the first line (hours or
  worker name) and the wage line with their visibility. Hours are integer
  tenths, so `"%.1f"` is written out as digits, a point and one digit.

External collaborators are parameters. The date parser is
`parse: string -> Option<DateParts>`, and every property holds for any parser.
The signed-in user is `currentUser: Option<string>`. The number formatter is
`decimalFormat: int -> Option<string>`.

The model follows the code where it differs from what the screens suggest.
The controllers set the register button's title (`isEdit ? "적용하기" :
"등록하기"`) only at construction, and the model assumes that the form's
`setReadMode` does not change it either (see "Left out"). In employee-mode edit, every emitted tuple carries the
same `eventId` and the form's current workplace id (not `editWorkplaceId`).
Its routine ids are the current selection, not `editRoutineIDs`.

## Model

| member | source | states |
|---|---|---|
| `ShiftRecords.Resolve` | MOUP/MOUP/Presentation/Registration/ShiftRegistration/ViewController/OwnerShiftRegistrationViewController.swift:371-379 | succeeds iff the date parses and a user is signed in; an unparsable date fails with DateParseFailed first, otherwise a missing user fails with UserIdNotFound |
| `ShiftRecords.Emitted` | MOUP/MOUP/Presentation/Registration/ShiftRegistration/ViewController/OwnerShiftRegistrationViewController.swift:371-379 | a failed tap emits nothing; a successful one emits exactly its records |
| `ShiftRecords.Register` | MOUP/MOUP/Presentation/Registration/ShiftRegistration/ViewController/OwnerShiftRegistrationViewController.swift:362-400 | fails iff the date does not parse or no user is signed in; in owner mode emits exactly one (workplaceId, event) with createdBy = user id, year/month/day = parsed parts, routineIds = selected routines |
| `ShiftRecords.Edit` | MOUP/MOUP/Presentation/Registration/ShiftRegistration/ViewController/OwnerShiftRegistrationViewController.swift:294-331 | fails iff the date does not parse or no user is signed in; in owner mode emits exactly one (editWorkplaceId, eventId, event) whose routineIds are the construction-time editRoutineIDs |
| `ShiftRecords.EventFor` | MOUP/MOUP/Presentation/Registration/ShiftRegistration/ViewController/OwnerShiftRegistrationViewController.swift:386-398 | the event carries the workplace name as title, the form's date string, times, repeat days and memo, the given creator and routine ids, and the parsed year/month/day |
| `ShiftRecords.WorkerEvents` | MOUP/MOUP/Presentation/Registration/ShiftRegistration/ViewController/OwnerShiftRegistrationViewController.swift:409-426 | the fan-out builds exactly one event per selected worker |
| `ShiftRecords.WorkerEventsAt` | MOUP/MOUP/Presentation/Registration/ShiftRegistration/ViewController/OwnerShiftRegistrationViewController.swift:409-422 | the k-th event of the fan-out is the form's event with createdBy = the k-th worker's id |
| `ShiftRecords.WorkerEventsSnoc` | MOUP/MOUP/Presentation/Registration/ShiftRegistration/ViewController/OwnerShiftRegistrationViewController.swift:409-426 | each loop iteration appends exactly the current worker's event (the loop step the methods use) |
| `ShiftRecords.CreateRequests` | MOUP/MOUP/Presentation/Registration/ShiftRegistration/ViewController/OwnerShiftRegistrationViewController.swift:424 | one create tuple per event, in order, each carrying the given workplace id and that event |
| `ShiftRecords.EditRequests` | MOUP/MOUP/Presentation/Registration/ShiftRegistration/ViewController/OwnerShiftRegistrationViewController.swift:356 | one edit tuple per event, in order, each carrying the given workplace id, event id and that event |
| `ShiftRecords.EmployeeRegisterFansOut` | MOUP/MOUP/Presentation/Registration/ShiftRegistration/ViewController/OwnerShiftRegistrationViewController.swift:403-426 | employee-mode register emits one tuple per worker in worker order; tuple k has the form's workplace id, createdBy = worker k's id, the parsed date and the selected routines; any two events are equal except for createdBy |
| `ShiftRecords.EmployeeEditFansOut` | MOUP/MOUP/Presentation/Registration/ShiftRegistration/ViewController/OwnerShiftRegistrationViewController.swift:334-358 | employee-mode edit emits one tuple per worker; every tuple has the same eventId and the form's current workplace id; createdBy = worker k's id; events equal except for createdBy |
| `ShiftRecords.EmployeeRegisterDistinctCreators` | MOUP/MOUP/Presentation/Registration/ShiftRegistration/ViewController/OwnerShiftRegistrationViewController.swift:409-426 | when worker ids are pairwise distinct, the emitted events' createdBy values are pairwise distinct |
| `ReadMode.RightButtonFor` | MOUP/MOUP/Presentation/Registration/ShiftRegistration/ViewController/OwnerShiftRegistrationViewController.swift:115-123 | hidden iff register mode; otherwise shown with title "수정" iff locked and "" iff unlocked |
| `ReadMode.RegisterButtonTitle` | MOUP/MOUP/Presentation/Registration/ShiftRegistration/ViewController/WorkShiftRegistrationViewController.swift:86 | "적용하기" iff the screen opens locked, "등록하기" iff it does not |
| `ReadMode.ActionFor` | MOUP/MOUP/Presentation/Registration/ShiftRegistration/ViewController/OwnerShiftRegistrationViewController.swift:261-265 | the register button is wired to the edit action iff the form is locked at setup |
| `OwnerShiftRegistration.OwnerShiftRegistrationController.constructor` | MOUP/MOUP/Presentation/Registration/ShiftRegistration/ViewController/OwnerShiftRegistrationViewController.swift:78-113 | keeps the construction ids; the lock and the form's read-only flag start as isEdit; register title from isEdit; owner mode; both channels empty |
| `OwnerShiftRegistration.OwnerShiftRegistrationController.UpdateRightBarButtonTitle` | MOUP/MOUP/Presentation/Registration/ShiftRegistration/ViewController/OwnerShiftRegistrationViewController.swift:115-123 | the right-bar button becomes RightButtonFor(isRegisterMode, isEdit); nothing else changes |
| `OwnerShiftRegistration.OwnerShiftRegistrationController.ToggleReadMode` | MOUP/MOUP/Presentation/Registration/ShiftRegistration/ViewController/OwnerShiftRegistrationViewController.swift:125-129 | flips isEdit, hands the new value to the form, refreshes the right-bar button |
| `OwnerShiftRegistration.OwnerShiftRegistrationController.DidTapRightButton` | MOUP/MOUP/Presentation/Registration/ShiftRegistration/ViewController/OwnerShiftRegistrationViewController.swift:218-223 | a tap flips the lock and leaves the right-bar button hidden |
| `OwnerShiftRegistration.OwnerShiftRegistrationController.DidChangeSegment` | MOUP/MOUP/Presentation/Registration/ShiftRegistration/ViewController/OwnerShiftRegistrationViewController.swift:430-445 | index 0: owner mode, worker selection hidden, routines shown; index 1: employee mode, worker selection shown, routines hidden; any other index changes nothing |
| `OwnerShiftRegistration.OwnerShiftRegistrationController.ViewDidLoad` | MOUP/MOUP/Presentation/Registration/ShiftRegistration/ViewController/OwnerShiftRegistrationViewController.swift:141-154 | after loading: register button wired by the lock, right-bar button set, owner mode with the owner sections visible |
| `OwnerShiftRegistration.OwnerShiftRegistrationController.DidTapRegister` | MOUP/MOUP/Presentation/Registration/ShiftRegistration/ViewController/OwnerShiftRegistrationViewController.swift:362-428 | the create channel grows by exactly the records Register describes for the current mode (nothing on failure); the loop pushes workers in order |
| `OwnerShiftRegistration.OwnerShiftRegistrationController.DidTapEdit` | MOUP/MOUP/Presentation/Registration/ShiftRegistration/ViewController/OwnerShiftRegistrationViewController.swift:294-360 | the edit channel grows by exactly the records Edit describes, using the construction-time ids (nothing on failure) |
| `OwnerShiftRegistration.OwnerShiftRegistrationController.DidTapRegisterButton` | MOUP/MOUP/Presentation/Registration/ShiftRegistration/ViewController/OwnerShiftRegistrationViewController.swift:261-265 | a tap runs only the action wired at load time and leaves the other channel untouched; before load it does nothing |
| `OwnerShiftRegistration.ToggleReadModeTwice` | MOUP/MOUP/Presentation/Registration/ShiftRegistration/ViewController/OwnerShiftRegistrationViewController.swift:125-129 | two toggles restore isEdit and the form's read-only flag; they leave the right-bar button as the original lock gives it; mode, section visibility, the wired action and the channels are unchanged |
| `WorkShiftRegistration.WorkShiftRegistrationController.constructor` | MOUP/MOUP/Presentation/Registration/ShiftRegistration/ViewController/WorkShiftRegistrationViewController.swift:54-89 | isEdit starts equal to isRead, as does the form's read-only flag; the register title is "적용하기" iff isRead, else "등록하기"; both channels empty |
| `WorkShiftRegistration.WorkShiftRegistrationController.UpdateRightBarButtonTitle` | MOUP/MOUP/Presentation/Registration/ShiftRegistration/ViewController/WorkShiftRegistrationViewController.swift:129-137 | the right-bar button becomes RightButtonFor(isRegisterMode, isEdit): always hidden on a register screen |
| `WorkShiftRegistration.WorkShiftRegistrationController.ToggleReadMode` | MOUP/MOUP/Presentation/Registration/ShiftRegistration/ViewController/WorkShiftRegistrationViewController.swift:139-143 | flips isEdit, hands it to the form, refreshes the right-bar button |
| `WorkShiftRegistration.WorkShiftRegistrationController.DidTapRightButton` | MOUP/MOUP/Presentation/Registration/ShiftRegistration/ViewController/WorkShiftRegistrationViewController.swift:220-225 | a tap flips the lock and leaves the right-bar button hidden |
| `WorkShiftRegistration.WorkShiftRegistrationController.ViewDidLoad` | MOUP/MOUP/Presentation/Registration/ShiftRegistration/ViewController/WorkShiftRegistrationViewController.swift:101-118 | after loading: worker selection hidden, register button wired by the lock, right-bar button set |
| `WorkShiftRegistration.WorkShiftRegistrationController.DidTapRegister` | MOUP/MOUP/Presentation/Registration/ShiftRegistration/ViewController/WorkShiftRegistrationViewController.swift:284-319 | nothing emitted if the date does not parse or no user is signed in; otherwise exactly one (workPlaceID, event) with createdBy = user id, the parsed date and the selected routines |
| `WorkShiftRegistration.WorkShiftRegistrationController.DidTapEdit` | MOUP/MOUP/Presentation/Registration/ShiftRegistration/ViewController/WorkShiftRegistrationViewController.swift:249-282 | nothing emitted on either failure; otherwise exactly one (editWorkplaceId, eventId, event) with routineIds = editRoutineIDs and createdBy = user id |
| `WorkShiftRegistration.WorkShiftRegistrationController.DidTapRegisterButton` | MOUP/MOUP/Presentation/Registration/ShiftRegistration/ViewController/WorkShiftRegistrationViewController.swift:204-208 | a tap runs only the action wired at load time; before load it does nothing |
| `WorkShiftRegistration.ToggleReadModeTwice` | MOUP/MOUP/Presentation/Registration/ShiftRegistration/ViewController/WorkShiftRegistrationViewController.swift:139-143 | two toggles restore isEdit, the form's read-only flag and the right-bar button the original lock gives; the wired action and the channels are unchanged |
| `ColorSelection.CellFor` | MOUP/MOUP/Presentation/Registration/ShiftRegistration/Submodules/ColorSelection/ViewController/ColorSelectionViewController.swift:147-148 | row r's cell shows preset r's name and colour and is marked selected iff r == selectedIndex |
| `ColorSelection.ExactlyOneRowSelected` | MOUP/MOUP/Presentation/Registration/ShiftRegistration/Submodules/ColorSelection/ViewController/ColorSelectionViewController.swift:142-150 | with the cursor on a valid row, the set of rows rendered selected is exactly {selectedIndex} |
| `ColorSelection.ColorSelectionController.constructor` | MOUP/MOUP/Presentation/Registration/ShiftRegistration/Submodules/ColorSelection/ViewController/ColorSelectionViewController.swift:27-41 | the table is the seven presets and selectedIndex starts at 0, the red preset "빨간색" |
| `ColorSelection.ColorSelectionController.NumberOfRowsInSection` | MOUP/MOUP/Presentation/Registration/ShiftRegistration/Submodules/ColorSelection/ViewController/ColorSelectionViewController.swift:138-140 | the row count equals the number of presets, 7 |
| `ColorSelection.ColorSelectionController.CellForRowAt` | MOUP/MOUP/Presentation/Registration/ShiftRegistration/Submodules/ColorSelection/ViewController/ColorSelectionViewController.swift:142-150 | the cell is CellFor of that row: the row's preset, selected iff the row is the cursor row |
| `ColorSelection.ColorSelectionController.DidSelectRowAt` | MOUP/MOUP/Presentation/Registration/ShiftRegistration/Submodules/ColorSelection/ViewController/ColorSelectionViewController.swift:152-155 | selecting row r sets selectedIndex to r, keeps it inside the table and changes nothing else |
| `ColorSelection.ColorSelectionController.DidTapApply` | MOUP/MOUP/Presentation/Registration/ShiftRegistration/Submodules/ColorSelection/ViewController/ColorSelectionViewController.swift:127-129 | apply hands back colors[selectedIndex], always one of the presets |
| `ColorSelection.ApplyWithoutSelection` | MOUP/MOUP/Presentation/Registration/ShiftRegistration/Submodules/ColorSelection/ViewController/ColorSelectionViewController.swift:41 | applying on a fresh picker with no row tapped yields the first preset, "빨간색" |
| `CalendarEventView.Decimal` | MOUP/MOUP/Presentation/Calendar/View/Components/CalendarEventVStackView.swift:46 | the integer part of the "%.1f" text is a non-empty string of decimal digits |
| `CalendarEventView.DecimalValue` | MOUP/MOUP/Presentation/Calendar/View/Components/CalendarEventVStackView.swift:46 | read back most-significant digit first, those digits denote exactly the number written |
| `CalendarEventView.DecimalInjective` | MOUP/MOUP/Presentation/Calendar/View/Components/CalendarEventVStackView.swift:46 | distinct hour counts have distinct digit strings |
| `CalendarEventView.OneDecimal` | MOUP/MOUP/Presentation/Calendar/View/Components/CalendarEventVStackView.swift:46 | the "%.1f" text is digits denoting the whole hours, then ".", then the tenths digit |
| `CalendarEventView.HoursText` | MOUP/MOUP/Presentation/Calendar/View/Components/CalendarEventVStackView.swift:49-53 | the hours text ends in "시간" and contains a decimal point iff the duration is not a whole number of hours |
| `CalendarEventView.HoursTextShape` | MOUP/MOUP/Presentation/Calendar/View/Components/CalendarEventVStackView.swift:46-53 | the "%.1f ends in 0" rule: a whole number of hours (tenths % 10 == 0) shows as digits + "시간"; any other shows digits "." digit + "시간" |
| `CalendarEventView.HoursTextInjective` | MOUP/MOUP/Presentation/Calendar/View/Components/CalendarEventVStackView.swift:46-53 | two durations with the same first-line text are the same duration |
| `CalendarEventView.FirstLineText` | MOUP/MOUP/Presentation/Calendar/View/Components/CalendarEventVStackView.swift:47-53 | shared mode shows the worker name; any other mode shows the hours text |
| `CalendarEventView.WageLabelAfter` | MOUP/MOUP/Presentation/Calendar/View/Components/CalendarEventVStackView.swift:55-71 | shared mode: hidden, text untouched; else visible iff wage type is "시급" or "고정"; "시급" shows the formatted wage, "고정" shows "고정급", anything else (nil included) shows "사장" |
| `CalendarEventView.CalendarEventVStack.constructor` | MOUP/MOUP/Presentation/Calendar/View/Components/CalendarEventVStackView.swift:33-36 | a new block's labels have no text and are visible, and no colours are set yet |
| `CalendarEventView.CalendarEventVStack.Update` | MOUP/MOUP/Presentation/Calendar/View/Components/CalendarEventVStackView.swift:45-76 | the first label's text becomes FirstLineText; the wage label becomes WageLabelAfter of its old state; both labels get color.textColor and the block color.backgroundColor in every mode |

## Left out

- Layout, styling, SnapKit constraints, gesture delegates and keyboard insets: rendering only.
- The downstream write chain behind each channel is asynchronous I/O and is not modelled. This covers view models, use cases, repositories and Firebase. It also covers the success/failure subscriptions, the screen pop on success and the logged failures. Each channel is modelled only as the sequence of values pushed into it. Employee-mode writes are independent, with no atomicity across workers.
- Diagnostic `print` lines: the model names the failure (`ShiftRecords.Failure`) but emits nothing, as the code does.
- `parseDateComponents`, the form-field getters, `Auth.auth().currentUser` and `NumberFormatter.decimalFormatter` are not part of this model. They are parameters: a parser function, a `Form` snapshot, an optional user id and a formatter function.
- The rest time field is read on submit but never reaches the record, so `Form` does not carry it.
- The titles, values and placeholders passed to `ShiftRegistrationContentView` at construction are not modelled. Only the read-only flag and the register-button title are kept. `ShiftRegistrationContentView.setReadMode` is modelled as the `contentReadOnly` flag it receives.
- `ShiftRegistrationContentView.setReadMode` is not part of this model, so the model assumes it leaves the register button's title alone; the controllers themselves set that title only at construction.
- `BaseNavigationBar.configureRightButton` is not part of this model. A call with a title is taken to show the button with that title, and a call with `isHidden: true` to hide it.
- Section visibility before the view loads is taken as shown, which is UIKit's default. The right-bar button is `Unconfigured` until the first update.
- `viewDidLoad` runs its setup only after the workplace fetch completes. `ViewDidLoad` models that completion; the fetch itself is I/O.
- `viewDidDisappear` delegate callbacks and navigation popping are not modelled.
- ColorCell: its `configure` call is reduced to the `ColorCellConfig` value it receives. The fallback plain cell, returned when dequeuing fails, is not modelled.
- `reloadData` after a row selection is not modelled. `onSelect` being nil and the pop after apply are not modelled either: `DidTapApply` returns the colour that `onSelect` receives.
- ColorSelection.ColorSelectionController.DidSelectRowAt: requires the row to be one of the table's rows, as UIKit only delivers rows that `numberOfRowsInSection` reported.
- CalendarEventView.CalendarEventVStack.Update: takes the work hours already as a whole number of tenths. Rounding a `Double` to one decimal and negative durations are floating point and are not modelled.
- `CalendarMode` and `LabelColorString` are reduced. The mode is shared or not shared, the only distinction `update` makes. The colour scheme is just its text and background colours.
