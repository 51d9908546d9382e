/**
 * The read/edit lock shared by both shift-registration screens: which title
 * the navigation bar's right button shows, which title the register button
 * gets, and which submit action the register button is wired to.
 */
module ReadMode {

  /** The navigation bar's right button, as the last `configureRightButton` call left it. */
  datatype RightButton = Unconfigured | Hidden | Shown(title: string)

  /** The action the register button runs when tapped. */
  datatype ButtonAction = RegisterAction | EditAction

  /**
   * `updateRightBarButtonTitle`: a register screen never shows the button;
   * otherwise it reads "수정" while the form is locked and is blank while it
   * is editable.
   */
  function RightButtonFor(isRegisterMode: bool, isEdit: bool): (b: RightButton)
    ensures b == Hidden <==> isRegisterMode
    ensures !isRegisterMode ==> b.Shown? && (b.title == "수정" <==> isEdit) && (b.title == "" <==> !isEdit)
  {
    if isRegisterMode then Hidden
    else Shown(if isEdit then "수정" else "")
  }

  /** Register-button title given at construction: "적용하기" for an existing shift, else "등록하기". */
  function RegisterButtonTitle(isRead: bool): (t: string)
    ensures t == "적용하기" <==> isRead
    ensures t == "등록하기" <==> !isRead
  {
    if isRead then "적용하기" else "등록하기"
  }

  /** `setupUI` wires the register button to the edit action exactly when the form starts locked. */
  function ActionFor(isEdit: bool): (a: ButtonAction)
    ensures a == EditAction <==> isEdit
  {
    if isEdit then EditAction else RegisterAction
  }
}
