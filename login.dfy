/** The login form: editing its two fields, validating them, the request
    that submitting it sends, and recording a session in the key-value
    store. */
module Login {
  import opened Common
  import opened Validation

  datatype LoginForm = LoginForm(username: string, password: string)

  /** The named inputs of the form. */
  datatype Field = Username | Password

  /** The form as the page first shows it: both inputs empty. */
  const EmptyForm := LoginForm("", "")

  const UsernameRequired := "Username is a required field"
  const PasswordRequired := "Password is a required field"

  /** The other keys under which a session is kept, beside `TokenKey`. */
  const UsernameKey := "username"
  const BalanceKey := "balance"

  /** The value of the input named `f`. */
  function FieldOf(form: LoginForm, f: Field): string
  {
    match f
    case Username => form.username
    case Password => form.password
  }

  /** `handleInput`: the named input takes the typed value and the other
      keeps its own. */
  function HandleInput(form: LoginForm, name: Field, value: string): (r: LoginForm)
    ensures FieldOf(r, name) == value
    ensures forall f :: f != name ==> FieldOf(r, f) == FieldOf(form, f)
  {
    match name
    case Username => form.(username := value)
    case Password => form.(password := value)
  }

  /** `validateInput`: passes exactly when neither field is empty; there is
      no length check. */
  function ValidateInput(data: LoginForm): (v: Verdict)
    ensures v.Pass? <==> data.username != "" && data.password != ""
  {
    if data.username == "" then Fail(Notice(UsernameRequired, Warning))
    else if data.password == "" then Fail(Notice(PasswordRequired, Warning))
    else Pass
  }

  /** The checks of the form in the order they are made. */
  function Checks(data: LoginForm): seq<Check>
  {
    [ Check(data.username != "", UsernameRequired),
      Check(data.password != "", PasswordRequired) ]
  }

  /** The chain reports exactly the warning of the first failing check, and
      the username comes first: with both fields empty only the username is
      reported. */
  lemma ValidateInputIsFirstFailure(data: LoginForm)
    ensures ValidateInput(data) == FirstFailure(Checks(data))
    ensures data.username == "" ==> ValidateInput(data) == Fail(Notice(UsernameRequired, Warning))
    ensures data.username != "" && data.password == "" ==> ValidateInput(data) == Fail(Notice(PasswordRequired, Warning))
  {
  }

  /** `handleSubmit`: `login` is called, with the username and password, only
      when validation passes. */
  function HandleSubmit(form: LoginForm): (s: Submission)
    ensures s.Send? <==> ValidateInput(form).Pass?
    ensures s.Send? ==> s.body == Credentials(form.username, form.password)
    ensures s.Rejected? ==> ValidateInput(form) == Fail(s.warning)
  {
    match ValidateInput(form)
    case Fail(w) => Rejected(w)
    case Pass => Send(Credentials(form.username, form.password))
  }

  /** Submitting the form as first shown calls nothing and reports the
      missing username. */
  lemma SubmitEmptyForm()
    ensures HandleSubmit(EmptyForm) == Rejected(Notice(UsernameRequired, Warning))
  {
  }

  /** Typing into both inputs of the empty form, in either order, yields
      exactly the typed values. */
  lemma FillEmptyForm(u: string, p: string)
    ensures HandleInput(HandleInput(EmptyForm, Username, u), Password, p) == LoginForm(u, p)
    ensures HandleInput(HandleInput(EmptyForm, Password, p), Username, u) == LoginForm(u, p)
  {
  }

  /** `persistLogin`: three successive writes record the session's token,
      username and balance; every other key keeps its value. */
  method PersistLogin(store: KeyValueStore, token: string, username: string, balance: string)
    modifies store
    ensures store.entries == old(store.entries)[TokenKey := token][UsernameKey := username][BalanceKey := balance]
    ensures store.GetItem(TokenKey) == Some(token)
    ensures store.GetItem(UsernameKey) == Some(username)
    ensures store.GetItem(BalanceKey) == Some(balance)
    ensures forall k :: k !in {TokenKey, UsernameKey, BalanceKey} ==> store.GetItem(k) == old(store.GetItem(k))
  {
    store.SetItem(TokenKey, token);
    store.SetItem(UsernameKey, username);
    store.SetItem(BalanceKey, balance);
  }
}
