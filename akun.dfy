/** The account page of `src/pages/akun.js`: the profile for a signed-in user, and
    otherwise the sign-in and registration forms with their handlers. A store call made
    by a handler is logged, and its settled outcome is a parameter of the handler;
    `router.push` is logged as the path pushed. */
module Akun {
  import opened Js
  import AuthStore

  const LOGIN_FAILED: string := "Login gagal. Periksa kembali username/password Anda."
  const PASSWORD_MISMATCH: string := "Password dan konfirmasi password tidak cocok."
  const FIELDS_REQUIRED: string := "Semua field wajib diisi."
  const REGISTER_SUCCESS: string := "Registrasi berhasil! Silakan masuk."
  const REGISTER_FAILED: string := "Registrasi gagal. Username/Email mungkin sudah digunakan."
  const ACCOUNT_PATH: string := "/akun"
  const HOME_PATH: string := "/"

  datatype Tab = LoginTab | RegisterTab

  /** A call of an auth store action, with its arguments in the order passed. */
  datatype StoreCall =
    | Login(username: string, password: string)
    | Register(username: string, email: string, password: string, namaLengkap: string)
    | Logout

  /** The text inputs, one `useState` each. */
  datatype Field = LoginUsername | LoginPassword | RegNama | RegUsername | RegEmail | RegPassword | RegConfirmPassword

  /** The two guards of `handleRegister`, in their order: the confirmation first, then
      the four required fields (the confirmation itself is not among them). */
  function RegisterGuard(nama: string, username: string, email: string, password: string,
                         confirmPassword: string): (e: Option<string>)
    ensures e == Some(PASSWORD_MISMATCH) <==> password != confirmPassword
    ensures e == Some(FIELDS_REQUIRED) <==>
              password == confirmPassword && (nama == "" || username == "" || email == "" || password == "")
    ensures e.None? <==>
              password == confirmPassword && nama != "" && username != "" && email != "" && password != ""
  {
    if password != confirmPassword then Some(PASSWORD_MISMATCH)
    else if nama == "" || username == "" || email == "" || password == "" then Some(FIELDS_REQUIRED)
    else None
  }

  /** `err.message || fallback` for a rejected store call. */
  function ErrorText(message: string, fallback: string): (t: string)
    requires fallback != ""
    ensures t != ""
    ensures message != "" ==> t == message
    ensures message == "" ==> t == fallback
  {
    Or(Some(message), fallback)
  }

  /** What the page shows. */
  datatype View =
    | Profile(user: AuthStore.User)
    | Forms(activeTab: Tab, error: Option<string>, message: Option<string>, busy: bool)

  /** `token && user` selects the profile; otherwise the forms, with the error and the
      message boxes only for non-empty texts and the submit buttons disabled while a
      call is running. */
  function ViewFor(user: Option<AuthStore.User>, token: Option<string>, activeTab: Tab,
                   error: Option<string>, message: Option<string>, isLoading: bool): (v: View)
    ensures v.Profile? <==> Truthy(token) && user.Some?
    ensures v.Profile? ==> v.user == user.value
    ensures v.Forms? ==>
              && v.activeTab == activeTab && v.busy == isLoading
              && (v.error.Some? <==> Truthy(error)) && (v.error.Some? ==> v.error == error)
              && (v.message.Some? <==> Truthy(message)) && (v.message.Some? ==> v.message == message)
  {
    if Truthy(token) && user.Some? then Profile(user.value)
    else Forms(activeTab, if Truthy(error) then error else None,
               if Truthy(message) then message else None, isLoading)
  }

  class AkunPage {
    var activeTab: Tab
    var isLoading: bool
    var error: Option<string>
    var message: Option<string>
    var showPassword: bool
    var loginUsername: string
    var loginPassword: string
    var regNama: string
    var regUsername: string
    var regEmail: string
    var regPassword: string
    var regConfirmPassword: string
    /** The store actions called, oldest first. */
    var calls: seq<StoreCall>
    /** The paths pushed to the router, oldest first. */
    var pushes: seq<string>

    /** The sign-in form's values. */
    function LoginForm(): seq<string>
      reads this
    {
      [loginUsername, loginPassword]
    }

    /** The registration form's values. */
    function RegisterForm(): seq<string>
      reads this
    {
      [regNama, regUsername, regEmail, regPassword, regConfirmPassword]
    }

    constructor ()
      ensures activeTab == LoginTab && !isLoading && error == None && message == None && !showPassword
      ensures LoginForm() == ["", ""] && RegisterForm() == ["", "", "", "", ""]
      ensures calls == [] && pushes == []
    {
      activeTab, isLoading, error, message, showPassword := LoginTab, false, None, None, false;
      loginUsername, loginPassword := "", "";
      regNama, regUsername, regEmail, regPassword, regConfirmPassword := "", "", "", "", "";
      calls, pushes := [], [];
    }

    /** An `onChange` handler: that input's state takes the typed value. */
    method Input(f: Field, value: string)
      modifies this
      ensures LoginForm() == [if f == LoginUsername then value else old(loginUsername),
                              if f == LoginPassword then value else old(loginPassword)]
      ensures RegisterForm() == [if f == RegNama then value else old(regNama),
                                 if f == RegUsername then value else old(regUsername),
                                 if f == RegEmail then value else old(regEmail),
                                 if f == RegPassword then value else old(regPassword),
                                 if f == RegConfirmPassword then value else old(regConfirmPassword)]
      ensures activeTab == old(activeTab) && isLoading == old(isLoading) && error == old(error)
      ensures message == old(message) && showPassword == old(showPassword)
      ensures calls == old(calls) && pushes == old(pushes)
    {
      match f
      case LoginUsername => loginUsername := value;
      case LoginPassword => loginPassword := value;
      case RegNama => regNama := value;
      case RegUsername => regUsername := value;
      case RegEmail => regEmail := value;
      case RegPassword => regPassword := value;
      case RegConfirmPassword => regConfirmPassword := value;
    }

    /** The eye button, shared by all password inputs. */
    method TogglePassword()
      modifies this`showPassword
      ensures showPassword == !old(showPassword)
    {
      showPassword := !showPassword;
    }

    /** A tab button: switches the form and clears both the error and the message. */
    method SelectTab(t: Tab)
      modifies this`activeTab, this`error, this`message
      ensures activeTab == t && error == None && message == None
    {
      activeTab := t;
      error := None;
      message := None;
    }

    /** `handleLogin`, with `outcome` the settled `login(loginUsername, loginPassword)`.
        On success the error stays cleared and the page pushes `/akun`; on failure the
        error shows the rejection's message, or the fallback when it is empty. Either
        way the busy flag ends false, and the forms are left as typed. */
    method HandleLogin(outcome: Result<AuthStore.LoginData>)
      modifies this
      ensures calls == old(calls) + [Login(old(loginUsername), old(loginPassword))]
      ensures !isLoading
      ensures outcome.Ok? ==> error == None && pushes == old(pushes) + [ACCOUNT_PATH]
      ensures outcome.Err? ==> error == Some(ErrorText(outcome.message, LOGIN_FAILED)) && pushes == old(pushes)
      ensures activeTab == old(activeTab) && message == old(message) && showPassword == old(showPassword)
      ensures LoginForm() == old(LoginForm()) && RegisterForm() == old(RegisterForm())
    {
      isLoading := true;
      error := None;
      calls := calls + [Login(loginUsername, loginPassword)];
      if outcome.Ok? {
        pushes := pushes + [ACCOUNT_PATH];
      } else {
        error := Some(Or(Some(outcome.message), LOGIN_FAILED));
      }
      isLoading := false;
    }

    /** `handleRegister`, with `outcome` the settled `register(...)`, consulted only when
        the guards let the call through. A guard failure sets only the error. A call
        clears the error and the message first; success then shows the backend's
        message or the default, switches to the sign-in tab and empties all five
        registration inputs; failure shows the rejection's message or the fallback. */
    method HandleRegister(outcome: Result<AuthStore.RegisterData>)
      modifies this
      ensures var guard := RegisterGuard(old(regNama), old(regUsername), old(regEmail),
                                         old(regPassword), old(regConfirmPassword));
              if guard.Some? then
                && error == guard && calls == old(calls)
                && activeTab == old(activeTab) && message == old(message) && isLoading == old(isLoading)
                && RegisterForm() == old(RegisterForm())
              else
                && calls == old(calls) + [Register(old(regUsername), old(regEmail), old(regPassword), old(regNama))]
                && !isLoading
                && (outcome.Ok? ==>
                      && error == None
                      && message == Some(Or(outcome.value.message, REGISTER_SUCCESS))
                      && activeTab == LoginTab
                      && RegisterForm() == ["", "", "", "", ""])
                && (outcome.Err? ==>
                      && error == Some(ErrorText(outcome.message, REGISTER_FAILED))
                      && message == None
                      && activeTab == old(activeTab)
                      && RegisterForm() == old(RegisterForm()))
      ensures pushes == old(pushes) && showPassword == old(showPassword) && LoginForm() == old(LoginForm())
    {
      if regPassword != regConfirmPassword {
        error := Some(PASSWORD_MISMATCH);
        return;
      }
      if regNama == "" || regUsername == "" || regEmail == "" || regPassword == "" {
        error := Some(FIELDS_REQUIRED);
        return;
      }
      SubmitRegistration(outcome);
    }

    /** The part of `handleRegister` after the guards: the store call and its outcome. */
    method SubmitRegistration(outcome: Result<AuthStore.RegisterData>)
      modifies this
      ensures calls == old(calls) + [Register(old(regUsername), old(regEmail), old(regPassword), old(regNama))]
      ensures !isLoading
      ensures outcome.Ok? ==>
                && error == None
                && message == Some(Or(outcome.value.message, REGISTER_SUCCESS))
                && activeTab == LoginTab
                && regNama == "" && regUsername == "" && regEmail == ""
                && regPassword == "" && regConfirmPassword == ""
      ensures outcome.Err? ==>
                && error == Some(ErrorText(outcome.message, REGISTER_FAILED))
                && message == None
                && activeTab == old(activeTab)
                && regNama == old(regNama) && regUsername == old(regUsername) && regEmail == old(regEmail)
                && regPassword == old(regPassword) && regConfirmPassword == old(regConfirmPassword)
      ensures pushes == old(pushes) && showPassword == old(showPassword) && loginUsername == old(loginUsername) && loginPassword == old(loginPassword)
    {
      isLoading := true;
      error := None;
      message := None;
      calls := calls + [Register(regUsername, regEmail, regPassword, regNama)];
      if outcome.Ok? {
        message := Some(Or(outcome.value.message, REGISTER_SUCCESS));
        activeTab := LoginTab;
        ResetRegisterForm();
      } else {
        error := Some(Or(Some(outcome.message), REGISTER_FAILED));
      }
      isLoading := false;
    }

    /** The five `setReg…('')` calls after a successful registration. */
    method ResetRegisterForm()
      modifies this`regNama, this`regUsername, this`regEmail, this`regPassword, this`regConfirmPassword
      ensures regNama == "" && regUsername == "" && regEmail == "" && regPassword == "" && regConfirmPassword == ""
    {
      regNama := "";
      regUsername := "";
      regEmail := "";
      regPassword := "";
      regConfirmPassword := "";
    }

    /** The profile's sign-out button: `logout()` is called, not awaited, and the page
        goes home. */
    method LogoutClick()
      modifies this`calls, this`pushes
      ensures calls == old(calls) + [Logout] && pushes == old(pushes) + [HOME_PATH]
    {
      calls := calls + [Logout];
      pushes := pushes + [HOME_PATH];
    }

    /** What is drawn for the store's current session. */
    function View(user: Option<AuthStore.User>, token: Option<string>): (v: View)
      reads this
      ensures v == ViewFor(user, token, activeTab, error, message, isLoading)
    {
      ViewFor(user, token, activeTab, error, message, isLoading)
    }
  }

  /** A registration whose fields all pass: the one store call carries the inputs in
      `register`'s argument order (the name last), and on success the page is on the
      sign-in tab with the success message and an empty form. */
  method RegistrationSucceeds(nama: string, username: string, email: string, password: string,
                              reply: AuthStore.RegisterData)
    returns (tab: Tab, message: Option<string>, form: seq<string>, calls: seq<StoreCall>)
    requires nama != "" && username != "" && email != "" && password != ""
    ensures tab == LoginTab && message == Some(Or(reply.message, REGISTER_SUCCESS))
    ensures form == ["", "", "", "", ""]
    ensures calls == [Register(username, email, password, nama)]
  {
    var page := new AkunPage();
    page.SelectTab(RegisterTab);
    page.Input(RegNama, nama);
    page.Input(RegUsername, username);
    page.Input(RegEmail, email);
    page.Input(RegPassword, password);
    page.Input(RegConfirmPassword, password);
    page.HandleRegister(Ok(reply));
    tab, message, form, calls := page.activeTab, page.message, page.RegisterForm(), page.calls;
  }

  /** A mismatching confirmation is reported before anything else, whatever the other
      fields hold (filled, as a submit the browser lets through has them, or empty):
      no store call is made and the typed values stay. */
  method MismatchBlocksRegistration(nama: string, username: string, email: string,
                                    password: string, confirmPassword: string,
                                    outcome: Result<AuthStore.RegisterData>)
    returns (error: Option<string>, form: seq<string>, calls: seq<StoreCall>)
    requires password != confirmPassword
    ensures error == Some(PASSWORD_MISMATCH)
    ensures form == [nama, username, email, password, confirmPassword]
    ensures calls == []
  {
    var page := new AkunPage();
    page.Input(RegNama, nama);
    page.Input(RegUsername, username);
    page.Input(RegEmail, email);
    page.Input(RegPassword, password);
    page.Input(RegConfirmPassword, confirmPassword);
    page.HandleRegister(outcome);
    error, form, calls := page.error, page.RegisterForm(), page.calls;
  }
}
