/**
 * The worker's own shift-registration screen: no segment, every record is the
 * signed-in user's own. A right-bar button unlocks a locked form, and the
 * register button pushes one record into the create or the edit channel.
 */
module WorkShiftRegistration {
  import opened Wrappers
  import opened ShiftRecords
  import opened ReadMode

  class WorkShiftRegistrationController {
    // Fixed at construction.
    const isRegisterMode: bool
    const eventId: string
    const editWorkplaceId: string
    const editRoutineIds: seq<string>
    const registerButtonTitle: string

    /** True while the form is locked (an existing shift being viewed). */
    var isEdit: bool
    /** The read-only flag last handed to the form's content view. */
    var contentReadOnly: bool
    var rightButton: RightButton
    /** The action the register button is wired to; none before the view has loaded. */
    var registerAction: Option<ButtonAction>
    var workerSelectionHidden: bool

    /** Everything pushed into the create channel so far. */
    var submitTrigger: seq<CreateRequest>
    /** Everything pushed into the edit channel so far. */
    var editTrigger: seq<EditRequest>

    constructor (isRegisterMode: bool, isRead: bool, eventId: string,
                 editWorkplaceId: string, editRoutineIds: seq<string>)
      ensures this.isRegisterMode == isRegisterMode && isEdit == isRead
      ensures this.eventId == eventId && this.editWorkplaceId == editWorkplaceId
      ensures this.editRoutineIds == editRoutineIds
      ensures contentReadOnly == isRead
      ensures registerButtonTitle == RegisterButtonTitle(isRead)
      ensures rightButton == Unconfigured && registerAction == None
      ensures !workerSelectionHidden
      ensures submitTrigger == [] && editTrigger == []
    {
      this.isRegisterMode := isRegisterMode;
      isEdit := isRead;
      this.eventId := eventId;
      this.editWorkplaceId := editWorkplaceId;
      this.editRoutineIds := editRoutineIds;
      contentReadOnly := isRead;
      registerButtonTitle := RegisterButtonTitle(isRead);
      rightButton := Unconfigured;
      registerAction := None;
      workerSelectionHidden := false;
      submitTrigger, editTrigger := [], [];
    }

    /** Sets the right-bar button from the register flag and the lock. */
    method UpdateRightBarButtonTitle()
      modifies this`rightButton
      ensures rightButton == RightButtonFor(isRegisterMode, isEdit)
    {
      if isRegisterMode {
        rightButton := Hidden;
        return;
      }
      var title := if isEdit then "수정" else "";
      rightButton := Shown(title);
    }

    /** Flips the lock, passes it to the form and refreshes the right-bar button. */
    method ToggleReadMode()
      modifies this`isEdit, this`contentReadOnly, this`rightButton
      ensures isEdit == !old(isEdit)
      ensures contentReadOnly == isEdit
      ensures rightButton == RightButtonFor(isRegisterMode, isEdit)
    {
      isEdit := !isEdit;
      contentReadOnly := isEdit;
      UpdateRightBarButtonTitle();
    }

    /** A tap on the right-bar button: toggle the lock, then hide the button. */
    method DidTapRightButton()
      modifies this`isEdit, this`contentReadOnly, this`rightButton
      ensures isEdit == !old(isEdit)
      ensures contentReadOnly == isEdit
      ensures rightButton == Hidden
    {
      ToggleReadMode();
      rightButton := Hidden;
    }

    /**
     * The steps that run once the workplaces have loaded: hide worker
     * selection and wire the register button by the lock (`setupUI`), then
     * set the right-bar button (`setupNavigationBar`).
     */
    method ViewDidLoad()
      modifies this`workerSelectionHidden, this`registerAction, this`rightButton
      ensures workerSelectionHidden
      ensures registerAction == Some(ActionFor(isEdit))
      ensures rightButton == RightButtonFor(isRegisterMode, isEdit)
    {
      workerSelectionHidden := true;
      registerAction := Some(ActionFor(isEdit));
      UpdateRightBarButtonTitle();
    }

    /**
     * `didTapRegister`: on success exactly one record, for the signed-in user,
     * with the parsed date and the selected routines.
     */
    method DidTapRegister(f: Form, parse: DateParser, currentUser: Option<string>)
      modifies this`submitTrigger
      ensures submitTrigger == old(submitTrigger) + Emitted(Register(f, Owner, parse, currentUser))
      ensures parse(f.eventDate).None? || currentUser.None? ==> submitTrigger == old(submitTrigger)
      ensures parse(f.eventDate).Some? && currentUser.Some? ==>
        var d := parse(f.eventDate).value;
        |submitTrigger| == |old(submitTrigger)| + 1 &&
        submitTrigger[|old(submitTrigger)|] ==
          CreateRequest(f.workplaceId, EventFor(f, d, currentUser.value, f.routineIds))
    {
      var parsed := parse(f.eventDate);
      if parsed.None? {
        return;
      }
      var d := parsed.value;
      if currentUser.None? {
        return;
      }
      var userId := currentUser.value;
      var event := EventFor(f, d, userId, f.routineIds);
      submitTrigger := submitTrigger + [CreateRequest(f.workplaceId, event)];
    }

    /**
     * `didTapEdit`: on success exactly one record, for the signed-in user,
     * with the workplace id, event id and routine ids fixed at construction.
     */
    method DidTapEdit(f: Form, parse: DateParser, currentUser: Option<string>)
      modifies this`editTrigger
      ensures editTrigger == old(editTrigger) +
        Emitted(Edit(f, Owner, parse, currentUser, editWorkplaceId, eventId, editRoutineIds))
      ensures parse(f.eventDate).None? || currentUser.None? ==> editTrigger == old(editTrigger)
      ensures parse(f.eventDate).Some? && currentUser.Some? ==>
        var d := parse(f.eventDate).value;
        |editTrigger| == |old(editTrigger)| + 1 &&
        editTrigger[|old(editTrigger)|] ==
          EditRequest(editWorkplaceId, eventId, EventFor(f, d, currentUser.value, editRoutineIds))
    {
      var parsed := parse(f.eventDate);
      if parsed.None? {
        return;
      }
      var d := parsed.value;
      if currentUser.None? {
        return;
      }
      var userId := currentUser.value;
      var event := EventFor(f, d, userId, editRoutineIds);
      editTrigger := editTrigger + [EditRequest(editWorkplaceId, eventId, event)];
    }

    /** A tap on the register button runs the action wired at load time; before that, nothing. */
    method DidTapRegisterButton(f: Form, parse: DateParser, currentUser: Option<string>)
      modifies this`submitTrigger, this`editTrigger
      ensures registerAction != Some(EditAction) ==> editTrigger == old(editTrigger)
      ensures registerAction != Some(RegisterAction) ==> submitTrigger == old(submitTrigger)
      ensures registerAction == Some(RegisterAction) ==>
        submitTrigger == old(submitTrigger) + Emitted(Register(f, Owner, parse, currentUser))
      ensures registerAction == Some(EditAction) ==>
        editTrigger == old(editTrigger) +
          Emitted(Edit(f, Owner, parse, currentUser, editWorkplaceId, eventId, editRoutineIds))
    {
      match registerAction {
        case Some(RegisterAction) => DidTapRegister(f, parse, currentUser);
        case Some(EditAction) => DidTapEdit(f, parse, currentUser);
        case None =>
      }
    }
  }

  /** Two taps of the lock toggle give back the original lock and right-bar button. */
  method ToggleReadModeTwice(c: WorkShiftRegistrationController)
    modifies c`isEdit, c`contentReadOnly, c`rightButton
    ensures c.isEdit == old(c.isEdit) && c.contentReadOnly == old(c.isEdit)
    ensures c.rightButton == RightButtonFor(c.isRegisterMode, old(c.isEdit))
    ensures c.registerAction == old(c.registerAction)
    ensures c.submitTrigger == old(c.submitTrigger) && c.editTrigger == old(c.editTrigger)
  {
    c.ToggleReadMode();
    c.ToggleReadMode();
  }
}
