/** The week-5 login screen: Google or phone-OTP sign-in leading to a profile screen.
    Firebase itself is outside the model; what its callbacks deliver arrives as method
    arguments. */
module PhoneLogin {
  import opened KotlinText

  /** The national-to-international rewrite done before the OTP request: one leading '0'
      becomes "+84"; anything else is dialled as typed. */
  function ToE164(raw: string): (r: string)
    ensures StartsWith(raw, "0") ==> |r| == |raw| + 2 && r[..3] == "+84" && r[3..] == raw[1..]
    ensures !StartsWith(raw, "0") ==> r == raw
    ensures !StartsWith(r, "0")
  {
    if StartsWith(raw, "0") then
      var r := "+84" + raw[1..];
      assert r[0] == '+';
      r
    else raw
  }

  /** Rewriting twice is rewriting once. */
  lemma ToE164Idempotent(raw: string)
    ensures ToE164(ToE164(raw)) == ToE164(raw)
  {
  }

  datatype Screen = Login | Profile

  const OtpUserName: string := "Uyên"
  const DefaultGoogleName: string := "Người dùng"
  const DefaultGoogleEmail: string := "Không có email"

  class LoginFlow {
    var currentScreen: Screen
    var showSmsForm: bool
    var storedVerificationId: Option<string>
    var userName: string
    var userEmail: string
    var userPhone: string
    var phoneNumber: string
    var otpCode: string

    constructor ()
      ensures currentScreen == Login && !showSmsForm && storedVerificationId == None
      ensures userName == "" && userEmail == "" && userPhone == ""
      ensures phoneNumber == "" && otpCode == ""
    {
      currentScreen := Login;
      showSmsForm := false;
      storedVerificationId := None;
      userName := "";
      userEmail := "";
      userPhone := "";
      phoneNumber := "";
      otpCode := "";
    }

    method ShowSmsForm()
      modifies this`showSmsForm
      ensures showSmsForm
    {
      showSmsForm := true;
    }

    method OnPhoneChange(it: string)
      modifies this`phoneNumber
      ensures phoneNumber == it
    {
      phoneNumber := it;
    }

    method OnOtpChange(it: string)
      modifies this`otpCode
      ensures otpCode == it
    {
      otpCode := it;
    }

    /** Send OTP: returns the number handed to the verification request. */
    method SendOtp(rawNumber: string) returns (dialled: string)
      ensures dialled == ToE164(rawNumber)
    {
      dialled := ToE164(rawNumber);
    }

    /** The code-sent callback keeps the verification id for verifyOtp. */
    method OnCodeSent(verificationId: string)
      modifies this`storedVerificationId
      ensures storedVerificationId == Some(verificationId)
    {
      storedVerificationId := Some(verificationId);
    }

    /** Verify: without a stored id no credential is built (only a toast); otherwise the
        credential pairs the id with the typed code. Either way the state waits for the
        sign-in result. */
    method VerifyOtp(code: string) returns (credential: Option<(string, string)>)
      ensures credential.None? <==> storedVerificationId.None?
      ensures credential.Some? ==> credential.value == (storedVerificationId.value, code)
    {
      if storedVerificationId.Some? {
        credential := Some((storedVerificationId.value, code));
      } else {
        credential := None;
      }
    }

    /** The result of an OTP sign-in (also used by the auto-verification callback): a
        success shows the profile with the fixed name, the phone field as typed (not the
        rewritten number) and no email; a failure changes nothing. */
    method OnOtpSignIn(success: bool)
      modifies this`userName, this`userPhone, this`userEmail, this`currentScreen
      ensures success ==> currentScreen == Profile && userName == OtpUserName
                          && userPhone == phoneNumber && userEmail == ""
      ensures !success ==> currentScreen == old(currentScreen) && userName == old(userName)
                           && userPhone == old(userPhone) && userEmail == old(userEmail)
    {
      if success {
        userName := OtpUserName;
        userPhone := phoneNumber;
        userEmail := "";
        currentScreen := Profile;
      }
    }

    /** The result of a Google sign-in: a success shows the profile with the account's
        name and email, or fixed fallbacks for missing ones. */
    method OnGoogleSignIn(success: bool, displayName: Option<string>, email: Option<string>)
      modifies this`userName, this`userEmail, this`currentScreen
      ensures success ==> currentScreen == Profile && userName == displayName.GetOr(DefaultGoogleName)
                          && userEmail == email.GetOr(DefaultGoogleEmail)
      ensures !success ==> currentScreen == old(currentScreen) && userName == old(userName)
                           && userEmail == old(userEmail)
    {
      if success {
        userName := displayName.GetOr(DefaultGoogleName);
        userEmail := email.GetOr(DefaultGoogleEmail);
        currentScreen := Profile;
      }
    }

    /** Back from the profile: the login screen with the SMS form hidden. */
    method Back()
      modifies this`currentScreen, this`showSmsForm
      ensures currentScreen == Login && !showSmsForm
    {
      currentScreen := Login;
      showSmsForm := false;
    }
  }

  /** The avatar letter: the name's first character, or "U" for an empty name. */
  function AvatarInitial(name: string): (r: string)
    ensures |r| == 1
    ensures name == "" ==> r == "U"
    ensures name != "" ==> r == name[..1]
  {
    if name == "" then "U" else [name[0]]
  }

  datatype ProfileRow = ProfileRow(caption: string, value: string)

  /** The profile card: the name always, the phone and the email only when not empty. */
  function ProfileRows(name: string, phone: string, email: string): (r: seq<ProfileRow>)
    ensures |r| >= 1 && r[0] == ProfileRow("Name", name)
    ensures ProfileRow("SĐT", phone) in r <==> phone != ""
    ensures ProfileRow("Email", email) in r <==> email != ""
    ensures forall k :: 0 <= k < |r| ==> r[k].value != "" || k == 0
  {
    [ProfileRow("Name", name)]
    + (if phone != "" then [ProfileRow("SĐT", phone)] else [])
    + (if email != "" then [ProfileRow("Email", email)] else [])
  }
}
