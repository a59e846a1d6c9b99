/** The forgot-password wizard: four screens sharing one UserData accumulator. The
    verification screen keeps six one-character slots; their concatenation is the code
    that gates the step to the reset screen. */
module PasswordReset {
  import opened KotlinText
  import opened NavStack

  const CodeLength: nat := 6

  const ForgetRoute: string := "forgetPassword"
  const VerificationRoute: string := "verification"
  const ResetRoute: string := "resetPassword"
  const ConfirmRoute: string := "confirm"

  /** The values gathered along the wizard; every field starts empty. */
  class UserData {
    var email: string
    var verificationCode: string
    var password: string
    var confirmPassword: string

    constructor ()
      ensures email == "" && verificationCode == "" && password == "" && confirmPassword == ""
    {
      email := "";
      verificationCode := "";
      password := "";
      confirmPassword := "";
    }
  }

  // ---------------------------------------------------------------- confirmed info

  datatype ConfirmedField = EmailField | CodeField | PasswordField {
    /** The field's place in the block, top to bottom. */
    function Rank(): nat {
      match this
      case EmailField => 0
      case CodeField => 1
      case PasswordField => 2
    }
  }

  /** The read-only fields the first screen lists under "confirmed info", in order. */
  function ConfirmedFields(email: string, code: string, password: string): (r: seq<ConfirmedField>)
    ensures EmailField in r <==> email != ""
    ensures CodeField in r <==> code != ""
    ensures PasswordField in r <==> password != ""
    ensures |r| <= 3
    ensures forall j, k :: 0 <= j < k < |r| ==> r[j].Rank() < r[k].Rank()
  {
    (if email != "" then [EmailField] else [])
    + (if code != "" then [CodeField] else [])
    + (if password != "" then [PasswordField] else [])
  }

  /** The condition guarding the whole "confirmed info" block. */
  predicate ShowsConfirmedInfo(email: string, code: string, password: string) {
    code != "" || password != "" || email != ""
  }

  /** The block is shown exactly when it has at least one field to show. */
  lemma ConfirmedInfoNonEmpty(email: string, code: string, password: string)
    ensures ShowsConfirmedInfo(email, code, password) <==> ConfirmedFields(email, code, password) != []
  {
    var r := ConfirmedFields(email, code, password);
    if r != [] {
      assert r[0] in r;
    }
  }

  // ---------------------------------------------------------------- code slots

  datatype Focus = MoveNext | MovePrevious | Stay

  /** Where the focus moves after an accepted edit of slot i. */
  function FocusAfter(i: nat, value: string): (f: Focus)
    ensures f == MoveNext <==> value != "" && i < CodeLength - 1
    ensures f == MovePrevious <==> value == "" && i > 0
  {
    if value != "" && i < CodeLength - 1 then MoveNext
    else if value == "" && i > 0 then MovePrevious
    else Stay
  }

  /** Every slot holds at most one UTF-16 code unit (String.length <= 1). */
  predicate AllShort(parts: seq<string>) {
    forall k :: 0 <= k < |parts| ==> Utf16Length(parts[k]) <= 1
  }

  predicate AllFilled(parts: seq<string>) {
    forall k :: 0 <= k < |parts| ==> parts[k] != ""
  }

  /** With a length of at most one per slot, the joined code's length is at most the
      number of slots, and it is exactly that iff no slot is empty. */
  lemma {:induction false} ConcatShortLength(parts: seq<string>)
    requires AllShort(parts)
    ensures Utf16Length(Concat(parts)) <= |parts|
    ensures Utf16Length(Concat(parts)) == |parts| <==> AllFilled(parts)
  {
    if parts != [] {
      var init := parts[..|parts| - 1];
      assert AllShort(init) by {
        forall k | 0 <= k < |init| ensures Utf16Length(init[k]) <= 1 {
          assert init[k] == parts[k];
        }
      }
      ConcatShortLength(init);
      Utf16LengthAppend(Concat(init), parts[|parts| - 1]);
      if AllFilled(parts) {
        assert AllFilled(init) by {
          forall k | 0 <= k < |init| ensures init[k] != "" {
            assert init[k] == parts[k];
          }
        }
      }
      if Utf16Length(Concat(parts)) == |parts| {
        assert parts[|parts| - 1] != "";
        forall k | 0 <= k < |parts| ensures parts[k] != "" {
          if k < |init| { assert parts[k] == init[k]; }
        }
      }
    }
  }

  /** The verification screen: six fresh empty slots each time it is shown, writing the
      joined code into the shared UserData after every accepted edit. */
  class VerificationScreen {
    const userData: UserData
    const slots: array<string>

    predicate Valid()
      reads this, slots
    {
      slots.Length == CodeLength && AllShort(slots[..])
    }

    constructor (userData: UserData)
      ensures Valid() && this.userData == userData && fresh(slots)
      ensures forall k :: 0 <= k < CodeLength ==> slots[k] == ""
    {
      this.userData := userData;
      slots := new string[CodeLength](_ => "");
    }

    /** onValueChange of slot i. A value whose length is more than one (two characters,
        or one character beyond U+FFFF) is ignored and nothing changes; any other value
        (a digit or not) replaces slot i alone and the stored code becomes the six slots
        joined in order. */
    method EditSlot(i: nat, value: string) returns (focus: Focus)
      requires Valid() && i < CodeLength
      modifies slots, userData`verificationCode
      ensures Valid()
      ensures Utf16Length(value) <= 1 ==>
        && slots[..] == old(slots[..])[i := value]
        && userData.verificationCode == Concat(slots[..])
        && |userData.verificationCode| <= CodeLength
        && focus == FocusAfter(i, value)
      ensures Utf16Length(value) > 1 ==>
        && slots[..] == old(slots[..])
        && userData.verificationCode == old(userData.verificationCode)
        && focus == Stay
    {
      focus := Stay;
      if Utf16Length(value) <= 1 {
        slots[i] := value;
        userData.verificationCode := Concat(slots[..]);
        ConcatShortLength(slots[..]);
        focus := FocusAfter(i, value);
      }
    }
  }

  /** The wizard: the shared UserData and the navigation back stack. */
  class SmartTasksApp {
    const userData: UserData
    var backStack: seq<string>

    constructor ()
      ensures fresh(userData) && backStack == [ForgetRoute]
      ensures userData.email == "" && userData.verificationCode == ""
      ensures userData.password == "" && userData.confirmPassword == ""
    {
      userData := new UserData();
      backStack := [ForgetRoute];
    }

    /** Next on the first screen: the typed email is stored, then the code screen opens. */
    method ForgetNext(email: string)
      modifies this, userData`email
      ensures userData.email == email
      ensures backStack == old(backStack) + [VerificationRoute]
    {
      userData.email := email;
      backStack := Navigate(backStack, VerificationRoute, None);
    }

    /** Next on the code screen: the reset screen opens only when the stored code has all
        six characters. The stored code may come from an earlier visit of the screen. */
    method VerificationNext()
      modifies this
      ensures backStack == if Utf16Length(userData.verificationCode) == CodeLength
                           then old(backStack) + [ResetRoute] else old(backStack)
    {
      if Utf16Length(userData.verificationCode) == CodeLength {
        backStack := Navigate(backStack, ResetRoute, None);
      }
    }

    /** Next on the reset screen: both fields are stored as typed, without comparing them. */
    method ResetNext(password: string, confirmPassword: string)
      modifies this, userData`password, userData`confirmPassword
      ensures userData.password == password && userData.confirmPassword == confirmPassword
      ensures backStack == old(backStack) + [ConfirmRoute]
    {
      userData.password := password;
      userData.confirmPassword := confirmPassword;
      backStack := Navigate(backStack, ConfirmRoute, None);
    }

    /** Submit on the confirm screen: back to a fresh first screen, whose previous copy
        is removed from the back stack. */
    method ConfirmSubmit()
      modifies this
      ensures backStack == Navigate(old(backStack), ForgetRoute, Some(PopUpTo(ForgetRoute, true)))
      ensures Occurrences(old(backStack), ForgetRoute) == 1 ==> ForgetRoute !in backStack[..|backStack| - 1]
    {
      backStack := Navigate(backStack, ForgetRoute, Some(PopUpTo(ForgetRoute, true)));
      if Occurrences(old(backStack), ForgetRoute) == 1 {
        NavigatePopsInclusive(old(backStack), ForgetRoute, ForgetRoute);
        var i := LastIndexOf(old(backStack), ForgetRoute);
        assert backStack[..|backStack| - 1] == old(backStack)[..i];
      }
    }
  }

  /** The user types one value into each slot, in order; with every slot filled the
      stored code has the full length. */
  method TypeCode(screen: VerificationScreen, code: seq<string>)
    requires screen.Valid() && |code| == CodeLength && AllShort(code)
    modifies screen.slots, screen.userData`verificationCode
    ensures screen.Valid() && screen.slots[..] == code
    ensures screen.userData.verificationCode == Concat(code)
    ensures Utf16Length(screen.userData.verificationCode) == CodeLength <==> AllFilled(code)
  {
    var focus := screen.EditSlot(0, code[0]);
    focus := screen.EditSlot(1, code[1]);
    focus := screen.EditSlot(2, code[2]);
    focus := screen.EditSlot(3, code[3]);
    focus := screen.EditSlot(4, code[4]);
    focus := screen.EditSlot(5, code[5]);
    assert screen.slots[..] == code;
    ConcatShortLength(code);
  }

  /** Submitting from the last screen of an uninterrupted pass leaves only a fresh first
      screen on the back stack. */
  lemma SubmitAfterPass()
    ensures Navigate([ForgetRoute, VerificationRoute, ResetRoute, ConfirmRoute], ForgetRoute,
                     Some(PopUpTo(ForgetRoute, true))) == [ForgetRoute]
  {
    var stack := [ForgetRoute, VerificationRoute, ResetRoute, ConfirmRoute];
    assert stack[1] != ForgetRoute && stack[2] != ForgetRoute && stack[3] != ForgetRoute by {
      assert ForgetRoute[0] == 'f' && VerificationRoute[0] == 'v';
      assert ResetRoute[0] == 'r' && ConfirmRoute[0] == 'c';
    }
    assert stack[0] == ForgetRoute;
    assert LastIndexOf(stack, ForgetRoute) == 0;
  }

  /** One pass through the wizard from the start, with a complete code, ends with only the
      first screen on the back stack and the typed values stored. */
  method FullPass(email: string, code: seq<string>, password: string, confirmPassword: string)
    returns (app: SmartTasksApp)
    requires |code| == CodeLength && AllShort(code) && AllFilled(code)
    ensures app.backStack == [ForgetRoute]
    ensures app.userData.email == email && app.userData.verificationCode == Concat(code)
    ensures app.userData.password == password && app.userData.confirmPassword == confirmPassword
  {
    app := new SmartTasksApp();
    app.ForgetNext(email);
    var screen := new VerificationScreen(app.userData);
    TypeCode(screen, code);
    assert app.userData.email == email && app.userData.verificationCode == Concat(code);
    app.VerificationNext();
    assert app.userData.email == email && app.userData.verificationCode == Concat(code);
    app.ResetNext(password, confirmPassword);
    assert app.userData.email == email && app.userData.verificationCode == Concat(code);
    assert app.backStack == [ForgetRoute, VerificationRoute, ResetRoute, ConfirmRoute];
    SubmitAfterPass();
    app.ConfirmSubmit();
  }
}
