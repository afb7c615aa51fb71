/**
 * The login page: the form record and its field updates, the switch between
 * the login and the register form, and the stub accept/reject rules of a
 * submit and of the demo login, which write the session into local storage.
 * `JSON.stringify` of the user record is the caller-supplied `stringify`.
 */
module Login {
  import opened Storage
  import Api
  import opened Wrappers

  datatype Field = Email | Password | Username

  datatype AuthForm = AuthForm(email: string, password: string, username: string)

  const EmptyForm: AuthForm := AuthForm("", "", "")

  function Get(form: AuthForm, f: Field): string {
    match f
    case Email => form.email
    case Password => form.password
    case Username => form.username
  }

  /** `handleInputChange`: the named field takes the value, the others stay */
  function InputChange(form: AuthForm, name: Field, value: string): (r: AuthForm)
    ensures Get(r, name) == value
    ensures forall f :: f != name ==> Get(r, f) == Get(form, f)
  {
    match name
    case Email => form.(email := value)
    case Password => form.(password := value)
    case Username => form.(username := value)
  }

  /** The user record stored beside the token */
  datatype UserRecord = UserRecord(id: string, username: string, email: string)

  const DemoToken: string := "demo-jwt-token"
  const DemoEmail: string := "demo@example.com"
  const DemoPassword: string := "password"
  const DemoPlayer: UserRecord := UserRecord("demo", "DemoPlayer", "demo@shootingstar.com")

  datatype Outcome =
    | LoggedIn(user: UserRecord)
    | Registered(user: UserRecord)
    | InvalidCredentials
    | MissingFields

  predicate Accepted(o: Outcome) {
    o.LoggedIn? || o.Registered?
  }

  /**
   * What a submit decides. Login accepts only the demo credentials; register
   * accepts any form whose three fields are all non-empty.
   */
  function Decide(isLogin: bool, form: AuthForm): (o: Outcome)
    ensures isLogin ==> o.LoggedIn? || o == InvalidCredentials
    ensures !isLogin ==> o.Registered? || o == MissingFields
    ensures isLogin ==> (o.LoggedIn? <==> form.email == DemoEmail && form.password == DemoPassword)
    ensures o.LoggedIn? ==> o.user == UserRecord("1", "DemoUser", form.email)
    ensures !isLogin ==> (o.Registered? <==> form.username != "" && form.email != "" && form.password != "")
    ensures o.Registered? ==> o.user == UserRecord("2", form.username, form.email)
  {
    if isLogin then
      if form.email == "demo@example.com" && form.password == "password"
      then LoggedIn(UserRecord("1", "DemoUser", form.email))
      else InvalidCredentials
    else
      if form.username != "" && form.email != "" && form.password != ""
      then Registered(UserRecord("2", form.username, form.email))
      else MissingFields
  }

  /** An accepted submit leaves a session that the API helpers recognise */
  lemma AcceptedSubmitAuthenticates(items: map<string, string>, userJson: string)
    ensures Api.IsAuthenticated(true, items["token" := DemoToken]["user" := userJson])
    ensures userJson != "" ==>
              Api.GetCurrentUser(true, items["token" := DemoToken]["user" := userJson]) == Some(userJson)
  {
  }

  class Page {
    var isLogin: bool
    var isLoading: bool
    var formData: AuthForm
    /** Every value written to `isLoading`, in order */
    ghost var loadingTrace: seq<bool>

    constructor ()
      ensures isLogin && !isLoading && formData == EmptyForm && loadingTrace == []
    {
      isLogin, isLoading, formData := true, false, EmptyForm;
      loadingTrace := [];
    }

    method HandleInputChange(name: Field, value: string)
      modifies this`formData
      ensures formData == InputChange(old(formData), name, value)
    {
      formData := InputChange(formData, name, value);
    }

    /** The "Register here" / "Login here" switch: other mode, empty form */
    method ToggleMode()
      modifies this`isLogin, this`formData
      ensures isLogin == !old(isLogin) && formData == EmptyForm
    {
      isLogin := !isLogin;
      formData := AuthForm("", "", "");
    }

    method SetIsLoading(b: bool)
      modifies this`isLoading, this`loadingTrace
      ensures isLoading == b && loadingTrace == old(loadingTrace) + [b]
    {
      isLoading := b;
      loadingTrace := loadingTrace + [b];
    }

    /**
     * `handleSubmit`: loading on, decide, on acceptance store the token and the
     * user record, loading off. A rejected submit writes nothing.
     */
    method HandleSubmit(store: LocalStorage, stringify: UserRecord -> string) returns (outcome: Outcome)
      modifies this`isLoading, this`loadingTrace, store
      ensures outcome == Decide(isLogin, formData)
      ensures Accepted(outcome) ==>
                store.items == old(store.items)["token" := DemoToken]["user" := stringify(outcome.user)]
      ensures !Accepted(outcome) ==> store.items == old(store.items)
      ensures !isLoading && loadingTrace == old(loadingTrace) + [true, false]
    {
      SetIsLoading(true);
      outcome := Decide(isLogin, formData);
      if Accepted(outcome) {
        store.SetItem("token", "demo-jwt-token");
        store.SetItem("user", stringify(outcome.user));
      }
      SetIsLoading(false);
    }

    /** `handleDemoLogin`: always stores the token and the demo player's record */
    method HandleDemoLogin(store: LocalStorage, stringify: UserRecord -> string)
      modifies this`isLoading, this`loadingTrace, store
      ensures store.items == old(store.items)["token" := DemoToken]["user" := stringify(DemoPlayer)]
      ensures !isLoading && loadingTrace == old(loadingTrace) + [true, false]
    {
      SetIsLoading(true);
      store.SetItem("token", "demo-jwt-token");
      store.SetItem("user", stringify(UserRecord("demo", "DemoPlayer", "demo@shootingstar.com")));
      SetIsLoading(false);
    }
  }
}
