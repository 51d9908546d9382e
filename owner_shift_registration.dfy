/**
 * The owner's shift-registration screen: a header segment chooses whether the
 * shift is the owner's own or one per selected worker, a right-bar button
 * unlocks a locked form, and the register button pushes records into the
 * create or the edit channel.
 */
module OwnerShiftRegistration {
  import opened Wrappers
  import opened ShiftRecords
  import opened ReadMode

  class OwnerShiftRegistrationController {
    // Fixed at construction.
    const isRegisterMode: bool
    const eventId: string
    const editWorkplaceId: string
    const editRoutineIds: seq<string>
    const registerButtonTitle: string

    /** True while the form is locked (an existing shift being viewed). */
    var isEdit: bool
    /** The read-only flag last handed to the form's content view. */
    var contentReadOnly: bool
    var registrationMode: RegistrationMode
    var rightButton: RightButton
    /** The action the register button is wired to; none before the view has loaded. */
    var registerAction: Option<ButtonAction>

    // Visibility of the form sections the segment switches.
    var workplaceRowHidden: bool
    var workerSelectionHidden: bool
    var routineHidden: bool

    /** Everything pushed into the create channel so far. */
    var submitTrigger: seq<CreateRequest>
    /** Everything pushed into the edit channel so far. */
    var editTrigger: seq<EditRequest>

    constructor (isRegisterMode: bool, isEdit: bool, eventId: string,
                 editWorkplaceId: string, editRoutineIds: seq<string>)
      ensures this.isRegisterMode == isRegisterMode && this.isEdit == isEdit
      ensures this.eventId == eventId && this.editWorkplaceId == editWorkplaceId
      ensures this.editRoutineIds == editRoutineIds
      ensures contentReadOnly == isEdit
      ensures registerButtonTitle == RegisterButtonTitle(isEdit)
      ensures registrationMode == Owner
      ensures rightButton == Unconfigured && registerAction == None
      ensures !workplaceRowHidden && !workerSelectionHidden && !routineHidden
      ensures submitTrigger == [] && editTrigger == []
    {
      this.isRegisterMode := isRegisterMode;
      this.isEdit := isEdit;
      this.editWorkplaceId := editWorkplaceId;
      this.editRoutineIds := editRoutineIds;
      contentReadOnly := isEdit;
      registerButtonTitle := RegisterButtonTitle(isEdit);
      this.eventId := eventId;
      registrationMode := Owner;
      rightButton := Unconfigured;
      registerAction := None;
      workplaceRowHidden, workerSelectionHidden, routineHidden := false, false, false;
      submitTrigger, editTrigger := [], [];
    }

    /** Sets the right-bar button from the register flag and the lock. */
    method UpdateRightBarButtonTitle()
      modifies this`rightButton
      ensures rightButton == RightButtonFor(isRegisterMode, isEdit)
    {
      if isRegisterMode {
        rightButton := Hidden;
        return;
      }
      var title := if isEdit then "수정" else "";
      rightButton := Shown(title);
    }

    /** Flips the lock, passes it to the form and refreshes the right-bar button. */
    method ToggleReadMode()
      modifies this`isEdit, this`contentReadOnly, this`rightButton
      ensures isEdit == !old(isEdit)
      ensures contentReadOnly == isEdit
      ensures rightButton == RightButtonFor(isRegisterMode, isEdit)
    {
      isEdit := !isEdit;
      contentReadOnly := isEdit;
      UpdateRightBarButtonTitle();
    }

    /** A tap on the right-bar button: toggle the lock, then hide the button. */
    method DidTapRightButton()
      modifies this`isEdit, this`contentReadOnly, this`rightButton
      ensures isEdit == !old(isEdit)
      ensures contentReadOnly == isEdit
      ensures rightButton == Hidden
    {
      ToggleReadMode();
      rightButton := Hidden;
    }

    /** Segment 0 selects owner mode, segment 1 employee mode; any other index changes nothing. */
    method DidChangeSegment(index: int)
      modifies this`registrationMode, this`workplaceRowHidden, this`workerSelectionHidden, this`routineHidden
      ensures index == 0 ==>
        registrationMode == Owner && !workplaceRowHidden && workerSelectionHidden && !routineHidden
      ensures index == 1 ==>
        registrationMode == Employee && !workplaceRowHidden && !workerSelectionHidden && routineHidden
      ensures index != 0 && index != 1 ==> unchanged(this)
    {
      match index {
        case 0 =>
          registrationMode := Owner;
          workplaceRowHidden := false;
          workerSelectionHidden := true;
          routineHidden := false;
        case 1 =>
          registrationMode := Employee;
          workplaceRowHidden := false;
          workerSelectionHidden := false;
          routineHidden := true;
        case _ =>
      }
    }

    /**
     * The steps that run once the workplaces have loaded: hide the workplace
     * row and wire the register button by the lock (`setupUI`), set the
     * right-bar button (`setupNavigationBar`), and select segment 0
     * (`setupSegment`).
     */
    method ViewDidLoad()
      modifies this`workplaceRowHidden, this`registerAction, this`rightButton,
               this`registrationMode, this`workerSelectionHidden, this`routineHidden
      ensures registerAction == Some(ActionFor(isEdit))
      ensures rightButton == RightButtonFor(isRegisterMode, isEdit)
      ensures registrationMode == Owner
      ensures !workplaceRowHidden && workerSelectionHidden && !routineHidden
    {
      workplaceRowHidden := true;
      registerAction := Some(ActionFor(isEdit));
      UpdateRightBarButtonTitle();
      DidChangeSegment(0);
    }

    /** `didTapRegister`: push the records `Register` describes into the create channel. */
    method DidTapRegister(f: Form, parse: DateParser, currentUser: Option<string>)
      modifies this`submitTrigger
      ensures submitTrigger == old(submitTrigger) + Emitted(Register(f, registrationMode, parse, currentUser))
    {
      var parsed := parse(f.eventDate);
      if parsed.None? {
        return;
      }
      var d := parsed.value;
      if currentUser.None? {
        return;
      }
      var userId := currentUser.value;
      match registrationMode {
        case Owner =>
          var event := EventFor(f, d, userId, f.routineIds);
          submitTrigger := submitTrigger + [CreateRequest(f.workplaceId, event)];
        case Employee =>
          var workers := f.workers;
          var i := 0;
          while i < |workers|
            invariant 0 <= i <= |workers|
            invariant submitTrigger ==
              old(submitTrigger) + CreateRequests(f.workplaceId, WorkerEvents(f, d, f.routineIds, workers[..i]))
          {
            var event := EventFor(f, d, workers[i].id, f.routineIds);
            assert workers[..i + 1] == workers[..i] + [workers[i]];
            WorkerEventsSnoc(f, d, f.routineIds, workers[..i], workers[i]);
            submitTrigger := submitTrigger + [CreateRequest(f.workplaceId, event)];
            i := i + 1;
          }
          assert workers[..i] == workers;
      }
    }

    /**
     * `didTapEdit`: push the records `Edit` describes into the edit channel,
     * with the ids fixed at construction.
     */
    method DidTapEdit(f: Form, parse: DateParser, currentUser: Option<string>)
      modifies this`editTrigger
      ensures editTrigger == old(editTrigger) +
        Emitted(Edit(f, registrationMode, parse, currentUser, editWorkplaceId, eventId, editRoutineIds))
    {
      var parsed := parse(f.eventDate);
      if parsed.None? {
        return;
      }
      var d := parsed.value;
      if currentUser.None? {
        return;
      }
      var userId := currentUser.value;
      match registrationMode {
        case Owner =>
          var event := EventFor(f, d, userId, editRoutineIds);
          editTrigger := editTrigger + [EditRequest(editWorkplaceId, eventId, event)];
        case Employee =>
          var workers := f.workers;
          var i := 0;
          while i < |workers|
            invariant 0 <= i <= |workers|
            invariant editTrigger ==
              old(editTrigger) + EditRequests(f.workplaceId, eventId, WorkerEvents(f, d, f.routineIds, workers[..i]))
          {
            var event := EventFor(f, d, workers[i].id, f.routineIds);
            assert workers[..i + 1] == workers[..i] + [workers[i]];
            WorkerEventsSnoc(f, d, f.routineIds, workers[..i], workers[i]);
            editTrigger := editTrigger + [EditRequest(f.workplaceId, eventId, event)];
            i := i + 1;
          }
          assert workers[..i] == workers;
      }
    }

    /** A tap on the register button runs the action wired at load time; before that, nothing. */
    method DidTapRegisterButton(f: Form, parse: DateParser, currentUser: Option<string>)
      modifies this`submitTrigger, this`editTrigger
      ensures registerAction != Some(EditAction) ==> editTrigger == old(editTrigger)
      ensures registerAction != Some(RegisterAction) ==> submitTrigger == old(submitTrigger)
      ensures registerAction == Some(RegisterAction) ==>
        submitTrigger == old(submitTrigger) +
          Emitted(Register(f, registrationMode, parse, currentUser))
      ensures registerAction == Some(EditAction) ==>
        editTrigger == old(editTrigger) +
          Emitted(Edit(f, registrationMode, parse, currentUser, editWorkplaceId, eventId, editRoutineIds))
    {
      match registerAction {
        case Some(RegisterAction) => DidTapRegister(f, parse, currentUser);
        case Some(EditAction) => DidTapEdit(f, parse, currentUser);
        case None =>
      }
    }
  }

  /** Two taps of the lock toggle give back the original lock and right-bar button. */
  method ToggleReadModeTwice(c: OwnerShiftRegistrationController)
    modifies c`isEdit, c`contentReadOnly, c`rightButton
    ensures c.isEdit == old(c.isEdit) && c.contentReadOnly == old(c.isEdit)
    ensures c.rightButton == RightButtonFor(c.isRegisterMode, old(c.isEdit))
    ensures c.registrationMode == old(c.registrationMode)
    ensures c.workplaceRowHidden == old(c.workplaceRowHidden)
    ensures c.workerSelectionHidden == old(c.workerSelectionHidden) && c.routineHidden == old(c.routineHidden)
    ensures c.registerAction == old(c.registerAction)
    ensures c.submitTrigger == old(c.submitTrigger) && c.editTrigger == old(c.editTrigger)
  {
    c.ToggleReadMode();
    c.ToggleReadMode();
  }
}
