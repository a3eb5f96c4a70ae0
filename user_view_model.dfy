/**
 * The session and registration state machine of the app's view model.
 *
 * The asynchronous auth and database collaborators are not part of this model: each
 * request method returns the request it hands to the collaborator (together with the
 * values its completion listener captures), and each completion listener is a method
 * that receives the collaborator's outcome as explicit parameters. Callbacks are
 * delivered one at a time, as sequential method calls.
 */
module ViewModel {
  import opened Wrappers
  import opened Model

  /** Progress of a registration attempt. */
  datatype RegistrationState = Idle | Loading | Success | Error(message: string)

  /** Progress of a login attempt. */
  datatype LoginState = Idle | Loading | Success | Error(message: string)

  /** Shown when registration is attempted without accepting the terms. */
  const TermsNotAcceptedMessage: string := "Debes aceptar los términos y condiciones"
  /** Fallback when account creation fails without a message. */
  const RegistrationFailedMessage: string := "Error en el registro"
  /** Fallback when the database write fails without a message. */
  const SaveFailedMessage: string := "Error al guardar datos"
  /** Fallback when sign-in fails without a message. */
  const SignInFailedMessage: string := "Error al iniciar sesión"

  /**
   * The account-creation request handed to the auth collaborator, with the values of the
   * form that its completion listener closes over (the password goes to the collaborator
   * only).
   */
  datatype CreateAccountRequest =
    CreateAccountRequest(email: string, password: string, gender: Gender, acceptedTerms: bool)

  /** The database write of `record` under `users/<uid>`. */
  datatype SaveUserRequest = SaveUserRequest(uid: string, record: User)

  /** The sign-in request handed to the auth collaborator. */
  datatype SignInRequest = SignInRequest(email: string, password: string)

  /** The four starter categories shown on the dashboard, in display order. */
  function SeedExpenses(): (seed: seq<CategoryExpense>) {
    [ CategoryExpense("Alimentación", 35000.0, Restaurant, 0xFFFF9800),
      CategoryExpense("Transporte", 15000.0, DirectionsCar, 0xFF2196F3),
      CategoryExpense("Servicios", 25000.0, Home, 0xFF4CAF50),
      CategoryExpense("Salud", 10000.0, LocalHospital, 0xFFE91E63) ]
  }

  /** The category names of a list of expenses, in order. */
  function Categories(expenses: seq<CategoryExpense>): (names: seq<string>)
    ensures |names| == |expenses|
    ensures forall i :: 0 <= i < |expenses| ==> names[i] == expenses[i].category
  {
    if expenses == [] then [] else [expenses[0].category] + Categories(expenses[1..])
  }

  /** The seed names the four categories in the order `init` adds them. */
  lemma SeedCategoriesInOrder()
    ensures |SeedExpenses()| == 4
    ensures Categories(SeedExpenses()) == ["Alimentación", "Transporte", "Servicios", "Salud"]
  {
  }

  /**
   * The dashboard total: the sum of the amounts, accumulated from the first category to
   * the last. Amounts are exact reals here.
   */
  function Total(expenses: seq<CategoryExpense>): (total: real)
    ensures (forall i :: 0 <= i < |expenses| ==> expenses[i].amount >= 0.0) ==>
              total >= 0.0 && forall i :: 0 <= i < |expenses| ==> expenses[i].amount <= total
  {
    if expenses == [] then 0.0
    else Total(expenses[..|expenses| - 1]) + expenses[|expenses| - 1].amount
  }

  /** The total of two lists put together is the sum of their totals. */
  lemma {:induction false} TotalAppend(a: seq<CategoryExpense>, b: seq<CategoryExpense>)
    ensures Total(a + b) == Total(a) + Total(b)
    decreases |b|
  {
    if b == [] {
      assert a + b == a;
    } else {
      var b' := b[..|b| - 1];
      assert (a + b)[..|a + b| - 1] == a + b';
      TotalAppend(a, b');
    }
  }

  lemma SeedTotal()
    ensures Total(SeedExpenses()) == 85000.0
  {
    var s := SeedExpenses();
    assert Total(s[..1]) == 35000.0 by { assert s[..1][..0] == []; }
    assert Total(s[..2]) == 50000.0 by { assert s[..2][..1] == s[..1]; }
    assert Total(s[..3]) == 75000.0 by { assert s[..3][..2] == s[..2]; }
    assert s[..4][..3] == s[..3];
  }

  /** The form check for a new password: both entries agree and have at least six characters. */
  function ValidatePasswords(password: string, confirmPassword: string): (ok: bool) {
    password == confirmPassword && |password| >= 6
  }

  /** Accepting a password is symmetric in the two entries, and both then have at least six characters. */
  lemma ValidatePasswordsSymmetric(password: string, confirmPassword: string)
    ensures ValidatePasswords(password, confirmPassword) == ValidatePasswords(confirmPassword, password)
    ensures ValidatePasswords(password, confirmPassword) ==> |password| >= 6 && |confirmPassword| >= 6
  {
  }

  /** Concrete cases: six equal characters pass; a mismatch or a short password fails. */
  lemma ValidatePasswordsExamples()
    ensures ValidatePasswords("abcdef", "abcdef")
    ensures !ValidatePasswords("abcdef", "abcxyz")
    ensures !ValidatePasswords("ab", "ab")
    ensures !ValidatePasswords("abcde", "abcde")
  {
  }

  /** The view model: two observable flow states, the registered users and the expense list. */
  class UserViewModel {
    var registrationState: RegistrationState
    var loginState: LoginState
    /** Append-only mirror of the users registered through this view model. */
    var users: seq<User>
    var expenses: seq<CategoryExpense>

    /** Only users who accepted the terms are ever stored. */
    ghost predicate Valid()
      reads this
    {
      forall i :: 0 <= i < |users| ==> users[i].acceptedTerms
    }

    /** Both flows start idle, no user is known and the expense list holds the seed. */
    constructor ()
      ensures Valid()
      ensures registrationState == RegistrationState.Idle && loginState == LoginState.Idle
      ensures users == [] && expenses == SeedExpenses()
    {
      registrationState := RegistrationState.Idle;
      loginState := LoginState.Idle;
      users := [];
      expenses := SeedExpenses();
    }

    /**
     * Starts a registration. Without accepted terms it fails at once and issues nothing;
     * otherwise it shows `Loading` and issues the account-creation request.
     */
    method RegisterUser(email: string, password: string, gender: Gender, acceptedTerms: bool)
      returns (request: Option<CreateAccountRequest>)
      requires Valid()
      modifies this`registrationState
      ensures Valid()
      ensures !acceptedTerms ==>
                request == None && registrationState == RegistrationState.Error(TermsNotAcceptedMessage)
      // Every issued request has accepted the terms: the link to OnSaveComplete's requires.
      ensures request.Some? ==> request.value.acceptedTerms
      ensures acceptedTerms ==>
                request == Some(CreateAccountRequest(email, password, gender, acceptedTerms)) &&
                registrationState == RegistrationState.Loading
    {
      if !acceptedTerms {
        registrationState := RegistrationState.Error(TermsNotAcceptedMessage);
        return None;
      }
      registrationState := RegistrationState.Loading;
      request := Some(CreateAccountRequest(email, password, gender, acceptedTerms));
    }

    /**
     * The account-creation listener. On success with a current uid it issues the database
     * write of the user built from that uid and the captured form values, and leaves the
     * state alone; on success without a uid it does nothing; on failure
     * it shows the collaborator's message, or the fallback.
     */
    method OnCreateUserComplete(request: CreateAccountRequest, successful: bool,
                                currentUid: Option<string>, errorMessage: Option<string>)
      returns (save: Option<SaveUserRequest>)
      requires Valid()
      modifies this`registrationState
      ensures Valid()
      ensures successful && currentUid.Some? ==>
                save == Some(SaveUserRequest(currentUid.value,
                  User(currentUid.value, request.email, request.gender, request.acceptedTerms))) &&
                registrationState == old(registrationState)
      ensures successful && currentUid.None? ==>
                save == None && registrationState == old(registrationState)
      ensures !successful ==>
                save == None &&
                registrationState == RegistrationState.Error(errorMessage.OrElse(RegistrationFailedMessage))
    {
      save := None;
      if successful {
        if currentUid.Some? {
          var user := User(currentUid.value, request.email, request.gender, request.acceptedTerms);
          save := Some(SaveUserRequest(currentUid.value, user));
        }
      } else {
        registrationState := RegistrationState.Error(errorMessage.OrElse(RegistrationFailedMessage));
      }
    }

    /**
     * The database-write listeners. On success the registration completes and the new
     * record is appended after every earlier user; on failure the collaborator's message,
     * or the fallback, is shown and `users` is left as it was. A write is only issued for a
     * request that passed the terms check, so its record has accepted the terms.
     */
    method OnSaveComplete(save: SaveUserRequest, successful: bool, errorMessage: Option<string>)
      requires Valid()
      requires save.record.acceptedTerms
      modifies this`registrationState, this`users
      ensures Valid()
      ensures successful ==>
                registrationState == RegistrationState.Success && users == old(users) + [save.record]
      ensures !successful ==>
                registrationState == RegistrationState.Error(errorMessage.OrElse(SaveFailedMessage)) &&
                users == old(users)
    {
      if successful {
        registrationState := RegistrationState.Success;
        users := users + [save.record];
      } else {
        registrationState := RegistrationState.Error(errorMessage.OrElse(SaveFailedMessage));
      }
    }

    /** Starts a login: shows `Loading` and issues the sign-in request. */
    method LoginUser(email: string, password: string) returns (request: SignInRequest)
      requires Valid()
      modifies this`loginState
      ensures Valid()
      ensures loginState == LoginState.Loading && request == SignInRequest(email, password)
    {
      loginState := LoginState.Loading;
      request := SignInRequest(email, password);
    }

    /** The sign-in listener: `Success`, or the collaborator's message, or the fallback. */
    method OnSignInComplete(successful: bool, errorMessage: Option<string>)
      requires Valid()
      modifies this`loginState
      ensures Valid()
      ensures successful ==> loginState == LoginState.Success
      ensures !successful ==> loginState == LoginState.Error(errorMessage.OrElse(SignInFailedMessage))
    {
      if successful {
        loginState := LoginState.Success;
      } else {
        loginState := LoginState.Error(errorMessage.OrElse(SignInFailedMessage));
      }
    }

    /** Ends the session: the login flow goes back to `Idle`. */
    method Logout()
      requires Valid()
      modifies this`loginState
      ensures Valid()
      ensures loginState == LoginState.Idle
    {
      loginState := LoginState.Idle;
    }

    /** Sets the login flow to the given state. */
    method UpdateLoginState(state: LoginState)
      requires Valid()
      modifies this`loginState
      ensures Valid()
      ensures loginState == state
    {
      loginState := state;
    }

    /** Sets the registration flow to the given state. */
    method UpdateRegistrationState(state: RegistrationState)
      requires Valid()
      modifies this`registrationState
      ensures Valid()
      ensures registrationState == state
    {
      registrationState := state;
    }
  }
}
