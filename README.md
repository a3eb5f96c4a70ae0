# UserViewModel: session and registration state machine

This project models the view model of a personal-finance app, `UserViewModel`. The view model sits between the
registration, login and dashboard screens and an external authentication and database service. It holds:

- two observable flow states, `RegistrationState` and `LoginState`, each `Idle | Loading | Success | Error(message)`;
- an append-only list of the users registered through it;
- a fixed list of four starter expense categories;
- a pure password-confirmation check and a total over the expense list.

The external service is replaced by explicit inputs and outputs:

- `RegisterUser` and `LoginUser` return the request they hand to the service. `CreateAccountRequest` holds the
  e-mail and password handed to the service, plus the gender and terms flag the completion listener captures. `SignInRequest` holds the credentials.
- Each completion listener is a method that receives the service's outcome as parameters. `OnCreateUserComplete`
  receives success, the current uid (absent when the service reports none) and the error message (absent when the
  exception has none). It returns the database write it issues, a `SaveUserRequest`. `OnSaveComplete` and
  `OnSignInComplete` receive success and the optional error message.
- Callbacks arrive one at a time, as sequential method calls on the `UserViewModel` class.

`UserViewModel.Valid()` is the invariant every operation keeps: every stored user accepted the terms. It holds
because the terms flag travels with the requests. `RegisterUser` issues a `CreateAccountRequest` only when the flag is
true. `OnCreateUserComplete` copies the captured flag into the record it asks to write. `OnSaveComplete` accepts only a
write whose record accepted the terms. Each method's `modifies` clause names only the fields it assigns, so "nothing
else changes" is part of each contract. For example, login never touches `users` or `registrationState`, and no
method touches `expenses` after the constructor seeds it. The `Flows` module drives complete flows on a fresh view
model and proves what a screen sees at the end.

Two points about where the checks and the record come from:

- `loginUser` (UserViewModel.kt:98-111) does no validation of its own. `registerUser` (UserViewModel.kt:58-62)
  checks only the terms. The registration screen calls `validatePasswords` itself (RegisterScreen.kt:196).
- UserViewModel.kt:71-76 builds a user record with a uid, an e-mail, a gender and `acceptedTerms`, and that is the
  `User` modelled here. The class declared in model/User.kt:9-15 has an e-mail, a password, a nullable gender,
  `acceptedTerms` and an `id`.

## Model

| member | source | states |
|---|---|---|
| `ViewModel.UserViewModel.constructor` | app/src/main/java/com/example/s2joelarias/screens/viewmodel/UserViewModel.kt:26-56 | both flows start `Idle`, `users` is empty, `expenses` is the seed list, and the invariant holds |
| `ViewModel.SeedCategoriesInOrder` | app/src/main/java/com/example/s2joelarias/screens/viewmodel/UserViewModel.kt:47-56 | the seed holds exactly four categories, in order: Alimentación, Transporte, Servicios, Salud |
| `ViewModel.SeedTotal` | app/src/main/java/com/example/s2joelarias/screens/viewmodel/UserViewModel.kt:50-53 | the seeded amounts add up to 85000 |
| `ViewModel.Total` | app/src/main/java/com/example/s2joelarias/screens/viewmodel/UserViewModel.kt:43-45 | when no amount is negative, the total is non-negative and at least every single amount |
| `ViewModel.TotalAppend` | app/src/main/java/com/example/s2joelarias/screens/viewmodel/UserViewModel.kt:43-45 | the total of two concatenated lists is the sum of their totals |
| `ViewModel.ValidatePasswords` | app/src/main/java/com/example/s2joelarias/screens/viewmodel/UserViewModel.kt:113-115 | defined as the expression at line 114: the two entries are equal and the password has at least six characters |
| `ViewModel.ValidatePasswordsSymmetric` | app/src/main/java/com/example/s2joelarias/screens/viewmodel/UserViewModel.kt:113-115 | the check does not depend on the order of the two entries, and accepting implies both have at least six characters |
| `ViewModel.ValidatePasswordsExamples` | app/src/main/java/com/example/s2joelarias/screens/viewmodel/UserViewModel.kt:113-115 | ("abcdef","abcdef") is accepted; ("abcdef","abcxyz"), ("ab","ab") and ("abcde","abcde") are rejected |
| `ViewModel.UserViewModel.RegisterUser` | app/src/main/java/com/example/s2joelarias/screens/viewmodel/UserViewModel.kt:58-66 | without accepted terms: `Error` with the terms message and no request; otherwise `Loading` and an account-creation request for exactly the form's values, carrying the accepted terms flag; `users` and `loginState` are unchanged |
| `ViewModel.UserViewModel.OnCreateUserComplete` | app/src/main/java/com/example/s2joelarias/screens/viewmodel/UserViewModel.kt:67-95 | success with a uid issues the write, under that uid, of the user built from the uid and the request's e-mail, gender and terms flag, and leaves the state as is; success without a uid does nothing; failure gives `Error` with the service's message or "Error en el registro"; `users` is unchanged |
| `ViewModel.UserViewModel.OnSaveComplete` | app/src/main/java/com/example/s2joelarias/screens/viewmodel/UserViewModel.kt:79-88 | for a record that accepted the terms, success gives `Success` and appends exactly that record after the old users; failure gives `Error` with the message or "Error al guardar datos" and keeps `users` |
| `ViewModel.UserViewModel.LoginUser` | app/src/main/java/com/example/s2joelarias/screens/viewmodel/UserViewModel.kt:98-101 | `loginState` becomes `Loading` and the sign-in request carries the credentials; nothing else changes |
| `ViewModel.UserViewModel.OnSignInComplete` | app/src/main/java/com/example/s2joelarias/screens/viewmodel/UserViewModel.kt:102-110 | `Success` on success, otherwise `Error` with the message or "Error al iniciar sesión"; nothing else changes |
| `ViewModel.UserViewModel.Logout` | app/src/main/java/com/example/s2joelarias/screens/viewmodel/UserViewModel.kt:117-120 | `loginState` becomes `Idle`, nothing else changes |
| `ViewModel.UserViewModel.UpdateLoginState` | app/src/main/java/com/example/s2joelarias/screens/viewmodel/UserViewModel.kt:133-135 | `loginState` becomes the given state, nothing else changes |
| `ViewModel.UserViewModel.UpdateRegistrationState` | app/src/main/java/com/example/s2joelarias/screens/viewmodel/UserViewModel.kt:137-139 | `registrationState` becomes the given state, nothing else changes |
| `Flows.RegisterWithoutTerms` | app/src/main/java/com/example/s2joelarias/screens/viewmodel/UserViewModel.kt:58-62 | declined terms: no request is issued, the terms error is shown, login stays `Idle` and no user is stored |
| `Flows.RegisterAndSave` | app/src/main/java/com/example/s2joelarias/screens/viewmodel/UserViewModel.kt:64-83 | a registration passes through `Loading` to `Success` and stores exactly one user built from the uid and the form |
| `Flows.RegisterTwice` | app/src/main/java/com/example/s2joelarias/screens/viewmodel/UserViewModel.kt:80-83 | two completed registrations are stored in completion order |
| `Flows.RegisterCreateFails` | app/src/main/java/com/example/s2joelarias/screens/viewmodel/UserViewModel.kt:90-94 | a failed account creation shows its message or the fallback and stores no user |
| `Flows.RegisterWithoutUid` | app/src/main/java/com/example/s2joelarias/screens/viewmodel/UserViewModel.kt:68-89 | success without a current uid issues no write and leaves the state at `Loading` |
| `Flows.RegisterSaveFails` | app/src/main/java/com/example/s2joelarias/screens/viewmodel/UserViewModel.kt:84-88 | a failed database write shows its message or the fallback and stores no user |
| `Flows.LoginAfterRegistration` | app/src/main/java/com/example/s2joelarias/screens/viewmodel/UserViewModel.kt:98-111 | login passes through `Loading` to `Success` or the error message, and the registration state and users stay as registration left them |
| `Flows.LogoutTwice` | app/src/main/java/com/example/s2joelarias/screens/viewmodel/UserViewModel.kt:117-120 | logout returns the login flow to `Idle`, and a second logout changes nothing |

## Left out

- The authentication and database SDK calls (`createUserWithEmailAndPassword`, `signInWithEmailAndPassword`, `setValue`, `currentUser`) are foreign code. Their results are the outcome parameters of the listener methods. The requests of `createUserWithEmailAndPassword` and `signInWithEmailAndPassword` are the values `RegisterUser` and `LoginUser` return; the `setValue` request is the value the listener `OnCreateUserComplete` returns. `currentUser` issues no request: its answer is the `currentUid` parameter of `OnCreateUserComplete`.
- `signOut` is dropped entirely: `Logout` neither issues a request nor takes an outcome, it only resets `loginState`.
- model/User.kt:9-15 declares neither a `uid` nor `toMap`. The database write carries the `User` record (uid, e-mail, gender, terms flag, no password) in place of `user.toMap()`.
- `getCurrentUser` is a thin wrapper over the service's current user and is not modelled.
- `updateLocation` and the location state are device I/O with floating-point coordinates and are not modelled.
- `ViewModel.Total`: amounts are exact reals, not IEEE doubles. Rounding in the Kotlin code's `sumOf` over `Double` is not modelled.
- `ViewModel.ValidatePasswords`: length is counted in Unicode characters. Kotlin's `String.length` counts UTF-16 code units, so the two differ for characters outside the Basic Multilingual Plane.
- Expense icons are modelled as the icon they name, not as the library `hashCode` that UserViewModel.kt stores.
- Interleaved asynchronous callbacks, and a second `registerUser` or `loginUser` while a request is in flight, are concurrency. Callbacks are modelled as sequential calls, each with the request it completes.
- `currentUserName` is read by the dashboard (UserDashboard.kt:212, 267) but is not defined in UserViewModel.kt. It is not modelled.
- `addUser`, `validateLogin`, `getAccessibilityData` and `saveAccessibilityData` are called by the screens but are not defined in UserViewModel.kt. They are not modelled; no user cap or duplicate-e-mail check is assumed.
- The Compose screens, navigation, permission dialogs, the map intent and the connection test in the activity are UI and network I/O.
