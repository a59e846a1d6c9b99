/** The email check form: one field, a message and its colour, set by the button. */
module EmailCheck {
  import opened KotlinText

  const NotValid: string := "Email không hợp lệ"
  const BadFormat: string := "Email không đúng định dạng"
  const Accepted: string := "Bạn đã nhập email hợp lệ"

  const ErrorColor: int := 0xFFFF_3B30
  const AcceptColor: int := 0xFF0D_47A1
  /** Color.Red, the colour before the first check. */
  const InitialColor: int := 0xFFFF_0000

  datatype Feedback = Feedback(message: string, color: int)

  /** The button handler's `when`: blank input, then input without '@', then accepted. */
  function CheckEmail(email: string): (r: Feedback)
    ensures r.message != ""
    ensures r.message == Accepted <==> '@' in email
    ensures r.color == AcceptColor <==> '@' in email
    ensures r.color == ErrorColor <==> '@' !in email
    ensures r.message == NotValid <==> IsBlank(email)
    ensures r.message == BadFormat <==> !IsBlank(email) && '@' !in email
  {
    if IsBlank(email) then Feedback(NotValid, ErrorColor)
    else if !Contains(email, '@') then Feedback(BadFormat, ErrorColor)
    else Feedback(Accepted, AcceptColor)
  }

  /** The form's state: the field, and the message with its colour (red before any check). */
  class EmailForm {
    var email: string
    var message: string
    var color: int

    constructor ()
      ensures email == "" && message == "" && color == InitialColor
    {
      email := "";
      message := "";
      color := InitialColor;
    }

    /** The message is displayed only when it is not empty. */
    predicate ShowsMessage()
      reads this
    {
      message != ""
    }

    method Check()
      modifies this
      ensures email == old(email)
      ensures Feedback(message, color) == CheckEmail(email)
      ensures ShowsMessage()
    {
      var r := CheckEmail(email);
      message := r.message;
      color := r.color;
    }
  }
}
