/** The login screen: empty-field validation, the `loading` flag around the
    login request, and a modal whose stored accept action is replaced only
    when a new one is supplied. */
module Login {
  import opened Wrappers
  import AppNavigator

  /** A deferred call of the screen's `onLogin(role, userId)` callback. */
  datatype Action = OnLogin(role: Option<string>, userId: Option<string>)

  /** The body of the login request. */
  datatype Credentials = Credentials(email: string, password: string)

  /** The abstract result of the login request: a decoded reply with its
      `ok` flag, or a thrown error (no connection, unreadable body). */
  datatype LoginResponse =
    | Reply(ok: bool, role: Option<string>, userId: Option<string>, message: Option<string>)
    | Thrown(errorMessage: string)

  /** What a call of `showModal` displays and, possibly, stores. */
  datatype Modal = Modal(title: string, message: string, onAccept: Option<Action>)

  const EmptyFieldsModal := Modal("Campos vacíos", "Por favor completa todos los campos", None)
  const GuestModal := Modal("Modo invitado", "Estás entrando en modo de solo lectura", Some(OnLogin(Some("guest"), None)))
  const LoginFailedMessage := "Error al iniciar sesión"
  const ServerUnreachableMessage := "Error al conectar con el servidor"

  /** The modal shown once the login request has answered. Only an ok reply
      yields an accept action, which calls `onLogin` with the reply's role and
      user id; a failed reply shows the server's non-empty message or a fixed
      one, and a thrown error its own non-empty message or another fixed one. */
  function ResponseModal(response: LoginResponse): (m: Modal)
    ensures m.onAccept.Some? <==> response.Reply? && response.ok
    ensures m.onAccept.Some? ==> m.title == "Éxito" && m.onAccept.value == OnLogin(response.role, response.userId)
    ensures m.onAccept.None? ==> m.title == "Error" && m.message != ""
    ensures response.Reply? && !response.ok ==>
      m.message == if response.message.Some? && response.message.value != "" then response.message.value else LoginFailedMessage
    ensures response.Thrown? ==>
      m.message == if response.errorMessage != "" then response.errorMessage else ServerUnreachableMessage
  {
    match response
    case Reply(ok, role, userId, message) =>
      if ok then Modal("Éxito", "Inicio de sesión exitoso", Some(OnLogin(role, userId)))
      else Modal("Error", if message.Some? && message.value != "" then message.value else LoginFailedMessage, None)
    case Thrown(errorMessage) =>
      Modal("Error", if errorMessage != "" then errorMessage else ServerUnreachableMessage, None)
  }

  class LoginScreen {
    var email: string
    var password: string
    var loading: bool
    var modalVisible: bool
    var modalTitle: string
    var modalMessage: string
    var onModalAccept: Option<Action>

    constructor ()
      ensures email == "" && password == "" && !loading
      ensures !modalVisible && modalTitle == "" && modalMessage == "" && onModalAccept == None
    {
      email, password, loading := "", "", false;
      modalVisible, modalTitle, modalMessage, onModalAccept := false, "", "", None;
    }

    /** `showModal`: set the title and the message and show the modal; replace
        the stored accept action only when a new one is given. */
    method ShowModal(m: Modal)
      modifies this
      ensures modalVisible && modalTitle == m.title && modalMessage == m.message
      ensures onModalAccept == if m.onAccept.Some? then m.onAccept else old(onModalAccept)
      ensures email == old(email) && password == old(password) && loading == old(loading)
    {
      modalTitle := m.title;
      modalMessage := m.message;
      modalVisible := true;
      if m.onAccept.Some? {
        onModalAccept := m.onAccept;
      }
    }

    /** The synchronous part of `handleLogin`: with an empty field it shows
        the empty-fields modal and sends nothing; otherwise it becomes busy
        and returns the request it sends. */
    method HandleLogin() returns (request: Option<Credentials>)
      modifies this
      ensures request.Some? <==> old(email) != "" && old(password) != ""
      ensures email == old(email) && password == old(password)
      ensures request.None? ==>
        loading == old(loading) && modalVisible && modalTitle == EmptyFieldsModal.title &&
        modalMessage == EmptyFieldsModal.message && onModalAccept == old(onModalAccept)
      ensures request.Some? ==>
        request.value == Credentials(email, password) && loading &&
        modalVisible == old(modalVisible) && modalTitle == old(modalTitle) &&
        modalMessage == old(modalMessage) && onModalAccept == old(onModalAccept)
    {
      if email == "" || password == "" {
        ShowModal(EmptyFieldsModal);
        return None;
      }
      loading := true;
      request := Some(Credentials(email, password));
    }

    /** The rest of `handleLogin`, once the request has answered: show the
        modal for the response and stop being busy. A successful login does
        not call `onLogin` here; it only becomes the modal's accept action. */
    method CompleteLogin(response: LoginResponse)
      modifies this
      ensures !loading && modalVisible
      ensures modalTitle == ResponseModal(response).title && modalMessage == ResponseModal(response).message
      ensures onModalAccept == if response.Reply? && response.ok then ResponseModal(response).onAccept else old(onModalAccept)
      ensures email == old(email) && password == old(password)
    {
      ShowModal(ResponseModal(response));
      loading := false;
    }

    /** The login button, disabled while a request is under way. */
    method PressLoginButton() returns (request: Option<Credentials>)
      modifies this
      ensures old(loading) ==>
        (request.None? && loading && modalVisible == old(modalVisible) &&
         modalTitle == old(modalTitle) && modalMessage == old(modalMessage))
      ensures !old(loading) ==> (request.Some? <==> email != "" && password != "")
      ensures !old(loading) && request.None? ==>
        !loading && modalVisible && modalTitle == EmptyFieldsModal.title &&
        modalMessage == EmptyFieldsModal.message
      ensures request.Some? ==> loading && request.value == Credentials(email, password)
      ensures request.Some? ==>
        modalVisible == old(modalVisible) && modalTitle == old(modalTitle) && modalMessage == old(modalMessage)
      ensures email == old(email) && password == old(password) && onModalAccept == old(onModalAccept)
    {
      if loading {
        return None;
      }
      request := HandleLogin();
    }

    /** `enterWithoutAccount`: the guest modal, whose accept action logs in
        as `guest`. */
    method EnterWithoutAccount()
      modifies this
      ensures modalVisible && modalTitle == GuestModal.title && modalMessage == GuestModal.message
      ensures onModalAccept == Some(OnLogin(Some("guest"), None))
      ensures email == old(email) && password == old(password) && loading == old(loading)
    {
      ShowModal(GuestModal);
    }

    /** The Aceptar button: hide the modal, then run the stored action if
        there is one. The action stays stored afterwards. */
    method PressAccept() returns (run: Option<Action>)
      modifies this
      ensures !modalVisible && run == old(onModalAccept) && onModalAccept == old(onModalAccept)
      ensures modalTitle == old(modalTitle) && modalMessage == old(modalMessage)
      ensures email == old(email) && password == old(password) && loading == old(loading)
    {
      modalVisible := false;
      run := onModalAccept;
    }

    /** `onRequestClose` (the back gesture): hide the modal without running
        the stored action. */
    method RequestClose()
      modifies this
      ensures !modalVisible && onModalAccept == old(onModalAccept)
      ensures modalTitle == old(modalTitle) && modalMessage == old(modalMessage)
      ensures email == old(email) && password == old(password) && loading == old(loading)
    {
      modalVisible := false;
    }
  }

  /** Running an action: the screen's `onLogin` is the navigator's
      `handleLogin`, which takes the role and ignores the user id. */
  method RunAction(app: AppNavigator.App, action: Action)
    modifies app
    ensures app.role == action.role
  {
    app.HandleLogin(action.role);
  }

  /** A successful login reaches the navigator only through Aceptar: after the
      response the app is still on the login stack, and pressing Aceptar
      passes the reply's role on. */
  method LoginThroughAccept(email: string, password: string, role: Option<string>, userId: Option<string>)
    returns (shownBeforeAccept: AppNavigator.ScreenGraph, roleAfterAccept: Option<string>)
    requires email != "" && password != ""
    ensures shownBeforeAccept == AppNavigator.LoginStack
    ensures roleAfterAccept == role
  {
    var app := new AppNavigator.App();
    var screen := new LoginScreen();
    screen.email, screen.password := email, password;
    var request := screen.PressLoginButton();
    screen.CompleteLogin(Reply(true, role, userId, None));
    shownBeforeAccept := AppNavigator.Shown(app.role);
    var run := screen.PressAccept();
    RunAction(app, run.value);
    roleAfterAccept := app.role;
  }

  /** A stored action outlives its modal: the guest modal dismissed with the
      back gesture, then a login attempt with empty fields, and Aceptar on the
      empty-fields modal enters guest mode. */
  method StaleGuestAction() returns (run: Option<Action>)
    ensures run == Some(OnLogin(Some("guest"), None))
  {
    var screen := new LoginScreen();
    screen.EnterWithoutAccount();
    screen.RequestClose();
    var request := screen.PressLoginButton();
    run := screen.PressAccept();
  }
}
