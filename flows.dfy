/**
 * Complete registration and login flows on a fresh view model, with the collaborator's
 * outcomes as inputs. Each method proves, from the view model's contracts alone, what a
 * screen observing the view model sees at the end of the flow.
 */
module Flows {
  import opened Wrappers
  import opened Model
  import opened ViewModel

  /** Without accepted terms nothing is issued, the form error is shown and no user is stored. */
  method RegisterWithoutTerms(email: string, password: string, gender: Gender)
    returns (issued: bool, state: RegistrationState, login: LoginState, users: seq<User>)
    ensures !issued
    ensures state == RegistrationState.Error(TermsNotAcceptedMessage)
    ensures login == LoginState.Idle && users == []
  {
    var vm := new UserViewModel();
    var request := vm.RegisterUser(email, password, gender, false);
    issued := request.Some?;
    state, login, users := vm.registrationState, vm.loginState, vm.users;
  }

  /**
   * Account creation and the database write both succeed: the state passes through
   * `Loading` to `Success` and exactly one user, built from the uid and the form, is stored.
   */
  method RegisterAndSave(email: string, password: string, gender: Gender, uid: string)
    returns (pending: RegistrationState, state: RegistrationState, users: seq<User>)
    ensures pending == RegistrationState.Loading
    ensures state == RegistrationState.Success
    ensures users == [User(uid, email, gender, true)]
  {
    var vm := new UserViewModel();
    var request := vm.RegisterUser(email, password, gender, true);
    pending := vm.registrationState;
    var save := vm.OnCreateUserComplete(request.value, true, Some(uid), None);
    vm.OnSaveComplete(save.value, true, None);
    state, users := vm.registrationState, vm.users;
  }

  /** Two successful registrations are stored in the order they completed. */
  method RegisterTwice(first: CreateAccountRequest, firstUid: string,
                       second: CreateAccountRequest, secondUid: string)
    returns (users: seq<User>)
    ensures users == [User(firstUid, first.email, first.gender, true),
                      User(secondUid, second.email, second.gender, true)]
  {
    var vm := new UserViewModel();
    var r1 := vm.RegisterUser(first.email, first.password, first.gender, true);
    var s1 := vm.OnCreateUserComplete(r1.value, true, Some(firstUid), None);
    vm.OnSaveComplete(s1.value, true, None);
    var r2 := vm.RegisterUser(second.email, second.password, second.gender, true);
    var s2 := vm.OnCreateUserComplete(r2.value, true, Some(secondUid), None);
    vm.OnSaveComplete(s2.value, true, None);
    users := vm.users;
  }

  /** Account creation fails: its message (or the fallback) is shown and no user is stored. */
  method RegisterCreateFails(email: string, password: string, gender: Gender, errorMessage: Option<string>)
    returns (state: RegistrationState, users: seq<User>)
    ensures state == RegistrationState.Error(if errorMessage.Some? then errorMessage.value else "Error en el registro")
    ensures users == []
  {
    var vm := new UserViewModel();
    var request := vm.RegisterUser(email, password, gender, true);
    var save := vm.OnCreateUserComplete(request.value, false, None, errorMessage);
    assert save == None;
    state, users := vm.registrationState, vm.users;
  }

  /** Creation succeeds but no current uid is reported: no write is issued and the state stays `Loading`. */
  method RegisterWithoutUid(email: string, password: string, gender: Gender)
    returns (issued: bool, state: RegistrationState, users: seq<User>)
    ensures !issued && state == RegistrationState.Loading && users == []
  {
    var vm := new UserViewModel();
    var request := vm.RegisterUser(email, password, gender, true);
    var save := vm.OnCreateUserComplete(request.value, true, None, None);
    issued := save.Some?;
    state, users := vm.registrationState, vm.users;
  }

  /** The database write fails: its message (or the fallback) is shown and no user is stored. */
  method RegisterSaveFails(email: string, password: string, gender: Gender, uid: string,
                           errorMessage: Option<string>)
    returns (state: RegistrationState, users: seq<User>)
    ensures state == RegistrationState.Error(if errorMessage.Some? then errorMessage.value else "Error al guardar datos")
    ensures users == []
  {
    var vm := new UserViewModel();
    var request := vm.RegisterUser(email, password, gender, true);
    var save := vm.OnCreateUserComplete(request.value, true, Some(uid), None);
    vm.OnSaveComplete(save.value, false, errorMessage);
    state, users := vm.registrationState, vm.users;
  }

  /**
   * A login after a completed registration: `Loading`, then `Success` or the message (or
   * the fallback); the registration state and the stored users are untouched.
   */
  method LoginAfterRegistration(email: string, password: string, gender: Gender, uid: string,
                                successful: bool, errorMessage: Option<string>)
    returns (pending: LoginState, login: LoginState, registration: RegistrationState, users: seq<User>)
    ensures pending == LoginState.Loading
    ensures login == if successful then LoginState.Success
                     else LoginState.Error(if errorMessage.Some? then errorMessage.value else "Error al iniciar sesión")
    ensures registration == RegistrationState.Success
    ensures users == [User(uid, email, gender, true)]
  {
    var vm := new UserViewModel();
    var request := vm.RegisterUser(email, password, gender, true);
    var save := vm.OnCreateUserComplete(request.value, true, Some(uid), None);
    vm.OnSaveComplete(save.value, true, None);
    var signIn := vm.LoginUser(email, password);
    pending := vm.loginState;
    vm.OnSignInComplete(successful, errorMessage);
    login, registration, users := vm.loginState, vm.registrationState, vm.users;
  }

  /** Logging out after a successful login returns to `Idle`; a second logout changes nothing. */
  method LogoutTwice(email: string, password: string)
    returns (afterFirst: LoginState, afterSecond: LoginState, registration: RegistrationState)
    ensures afterFirst == LoginState.Idle && afterSecond == afterFirst
    ensures registration == RegistrationState.Idle
  {
    var vm := new UserViewModel();
    var signIn := vm.LoginUser(email, password);
    vm.OnSignInComplete(true, None);
    vm.Logout();
    afterFirst := vm.loginState;
    vm.Logout();
    afterSecond, registration := vm.loginState, vm.registrationState;
  }
}
