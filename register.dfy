/** The registration form: editing its three fields, validating them, and the
    request that submitting it sends. */
module Register {
  import opened Common
  import opened Validation

  datatype RegistrationForm = RegistrationForm(username: string, password: string, confirmPassword: string)

  /** The named inputs of the form. */
  datatype Field = Username | Password | ConfirmPassword

  /** The form as the page first shows it: every input empty. */
  const EmptyForm := RegistrationForm("", "", "")

  /** The shortest username and password the form accepts. */
  const MinLength := 6

  const UsernameRequired := "Username is a required field"
  const UsernameTooShort := "Username must be at least 6 characters"
  const PasswordRequired := "Password is a required field"
  const PasswordTooShort := "Password must be at least 6 characters"
  const PasswordsDiffer := "Passwords do not match"

  /** The length JavaScript's `.length` gives a string: its count of UTF-16
      code units, where a character outside the Basic Multilingual Plane
      takes two. */
  function Utf16Length(s: string): (n: nat)
    ensures |s| <= n <= 2 * |s|
    ensures n == 0 <==> s == ""
  {
    if s == [] then 0
    else Utf16Length(s[..|s| - 1]) + (if s[|s| - 1] as int >= 0x1_0000 then 2 else 1)
  }

  /** The value of the input named `f`. */
  function FieldOf(form: RegistrationForm, f: Field): string
  {
    match f
    case Username => form.username
    case Password => form.password
    case ConfirmPassword => form.confirmPassword
  }

  /** `handleInput`: the named input takes the typed value and the other two
      keep theirs. */
  function HandleInput(form: RegistrationForm, name: Field, value: string): (r: RegistrationForm)
    ensures FieldOf(r, name) == value
    ensures forall f :: f != name ==> FieldOf(r, f) == FieldOf(form, f)
  {
    match name
    case Username => form.(username := value)
    case Password => form.(password := value)
    case ConfirmPassword => form.(confirmPassword := value)
  }

  /** `validateInput`: an if/else chain that stops at the first failing
      check. It passes exactly when the username and the password are each
      at least six UTF-16 code units long and the confirmation repeats the
      password. */
  function ValidateInput(data: RegistrationForm): (v: Verdict)
    ensures v.Pass? <==>
      Utf16Length(data.username) >= MinLength && Utf16Length(data.password) >= MinLength &&
      data.password == data.confirmPassword
  {
    if data.username == "" then Fail(Notice(UsernameRequired, Warning))
    else if Utf16Length(data.username) < MinLength then Fail(Notice(UsernameTooShort, Warning))
    else if data.password == "" then Fail(Notice(PasswordRequired, Warning))
    else if Utf16Length(data.password) < MinLength then Fail(Notice(PasswordTooShort, Warning))
    else if data.password != data.confirmPassword then Fail(Notice(PasswordsDiffer, Warning))
    else Pass
  }

  /** The checks of the form in the order they are made. */
  function Checks(data: RegistrationForm): seq<Check>
  {
    [ Check(data.username != "", UsernameRequired),
      Check(Utf16Length(data.username) >= MinLength, UsernameTooShort),
      Check(data.password != "", PasswordRequired),
      Check(Utf16Length(data.password) >= MinLength, PasswordTooShort),
      Check(data.password == data.confirmPassword, PasswordsDiffer) ]
  }

  /** The chain reports exactly the warning of the first failing check of
      the ordered list, and passes when none fails. */
  lemma ValidateInputIsFirstFailure(data: RegistrationForm)
    ensures ValidateInput(data) == FirstFailure(Checks(data))
  {
    var cs := Checks(data);
    if data.username == "" {
      FirstFailureAt(cs, 0);
    } else if Utf16Length(data.username) < MinLength {
      FirstFailureAt(cs, 1);
    } else if data.password == "" {
      FirstFailureAt(cs, 2);
    } else if Utf16Length(data.password) < MinLength {
      FirstFailureAt(cs, 3);
    } else if data.password != data.confirmPassword {
      FirstFailureAt(cs, 4);
    } else {
      assert forall i :: 0 <= i < |cs| ==> cs[i].holds;
    }
  }

  /** The warning each failing case reports. An empty username is reported
      as missing whatever the other fields hold; an empty password as
      missing, not as short. */
  lemma ValidationWarnings(data: RegistrationForm)
    ensures data.username == "" ==> ValidateInput(data) == Fail(Notice(UsernameRequired, Warning))
    ensures data.username != "" && Utf16Length(data.username) < MinLength ==>
      ValidateInput(data) == Fail(Notice(UsernameTooShort, Warning))
    ensures Utf16Length(data.username) >= MinLength && data.password == "" ==>
      ValidateInput(data) == Fail(Notice(PasswordRequired, Warning))
    ensures Utf16Length(data.username) >= MinLength && data.password != "" && Utf16Length(data.password) < MinLength ==>
      ValidateInput(data) == Fail(Notice(PasswordTooShort, Warning))
    ensures Utf16Length(data.username) >= MinLength && Utf16Length(data.password) >= MinLength &&
            data.password != data.confirmPassword ==>
      ValidateInput(data) == Fail(Notice(PasswordsDiffer, Warning))
  {
  }

  /** Three characters outside the Basic Multilingual Plane make a username
      of six code units, long enough: the form with that username and a
      confirmed seven-letter password passes. */
  lemma AstralUsernamePasses()
    ensures ValidateInput(RegistrationForm("\U{1F600}\U{1F600}\U{1F600}", "secret1", "secret1")) == Pass
  {
    var u := "\U{1F600}\U{1F600}\U{1F600}";
    assert u[..2][..1] == u[..1];
    assert u[..1][..0] == [];
    assert u[..|u| - 1] == u[..2];
    assert Utf16Length(u[..1]) == 2;
    assert Utf16Length(u) == 6;
  }

  /** `handleSubmit`: a request is sent only when validation passes, and its
      body carries the username and password but not the confirmation. */
  function HandleSubmit(form: RegistrationForm): (s: Submission)
    ensures s.Send? <==> ValidateInput(form).Pass?
    ensures s.Send? ==> s.body.username == form.username && s.body.password == form.password
    ensures s.Rejected? ==> ValidateInput(form) == Fail(s.warning)
  {
    match ValidateInput(form)
    case Fail(w) => Rejected(w)
    case Pass => Send(Credentials(form.username, form.password))
  }

  /** Submitting the form as first shown sends nothing and reports the
      missing username. */
  lemma SubmitEmptyForm()
    ensures HandleSubmit(EmptyForm) == Rejected(Notice(UsernameRequired, Warning))
  {
  }

  /** Typing into each input of the empty form yields exactly the typed
      values, whether the inputs are filled top to bottom or bottom to top. */
  lemma FillEmptyForm(u: string, p: string, c: string)
    ensures HandleInput(HandleInput(HandleInput(EmptyForm, Username, u), Password, p), ConfirmPassword, c) ==
      RegistrationForm(u, p, c)
    ensures HandleInput(HandleInput(HandleInput(EmptyForm, ConfirmPassword, c), Password, p), Username, u) ==
      RegistrationForm(u, p, c)
  {
  }
}
