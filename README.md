# Role guard, login session write and registration form checks

A Dafny model of the authorization core of an Angular client for a JWT-based
account service:

- `Guards` models `roleGuard`, the route guard that sends a logged-out user to
  `/login`, lets a logged-in user through when one of the route's required roles
  is among the user's roles, and otherwise sends the user to `/`. Each deny path
  also shows a snack-bar notice. The decision is the pure function `Decide`. The
  method `RoleGuard` performs it against `Ui.Effects`, which records router and
  snack-bar calls in one log, in call order.
- `Services` models `AuthService.login` once the server has answered. The
  browser's `localStorage` is the class `LocalStorage`, holding a
  `map<string, string>`. `Login` writes the response's token under the fixed key
  `"token"` only when `isSuccess` holds, and then returns the response unchanged.
  `StoreAfterLogin` is the specification of that store update.
- `RegisterPage` models the registration page's `passwordMatchValidator` and the
  two callbacks of `register()`. A form group is a map from control name to
  value (`Controls`), and `ControlValue` stands for `control.get(name)?.value`,
  with `None` for `undefined`. On a status-400 error, the error callback stores
  the server's validation-error list in `errors`. On any other status it changes
  nothing.

The logged-in flag and the user's role list are parameters of the guard,
because `isLoggedIn()` and `getRoles()` are not part of this model. The server's
login response and the registration error response are parameters of the
callbacks, because the HTTP exchange is not modelled either.

An empty required-role list denies a logged-in user and sends them to `/`,
because `[].some(...)` is false (`client/src/app/guards/role.guard.ts:24`); see
the fourth `ensures` of `Guards.Decide`.

## Model

| member | source | states |
|---|---|---|
| Guards.Includes | client/src/app/guards/role.guard.ts:24 | the `includes` scan holds iff the role string is a member of the user's list: exact, case-sensitive equality |
| Guards.OptionalIncludes | client/src/app/guards/role.guard.ts:24 | `userRoles?.includes(role)` holds iff the list is present and contains the role; an absent list never matches |
| Guards.AnyRole | client/src/app/guards/role.guard.ts:24 | the `some` scan holds iff the user's list is present and shares at least one role with the required list (OR semantics); an empty required list never matches |
| Guards.Decide | client/src/app/guards/role.guard.ts:12-31 | logged out gives RedirectToLogin whatever the roles; Allow iff logged in and a required role is held; every other logged-in case gives RedirectToHome, in particular an empty required list and an absent user-role list |
| Guards.EffectsFor | client/src/app/guards/role.guard.ts:15-29 | Allow makes no UI request; each deny path makes exactly one navigation (to `/login` or to `/`) followed by exactly one notice with its own message, action "Ok" and duration 5000 |
| Guards.RoleGuard | client/src/app/guards/role.guard.ts:6-32 | returns true exactly on Allow, and appends exactly the decided outcome's UI requests, in order, to the earlier ones |
| Guards.ExactRoleMatching | client/src/app/guards/role.guard.ts:14-24 | concrete scenarios, not the general rule: "admin" does not match "Admin", "Administrator" does not match "Admin", one matching role out of two required suffices, `["User"]` against `["Admin"]` is denied, and a logged-out Admin is sent to login |
| Services.LocalStorage.SetItem | client/src/app/services/auth.service.ts:23 | `setItem` maps the key to the value and leaves every other entry as it was |
| Services.StoreAfterLogin | client/src/app/services/auth.service.ts:21-26 | on success the store maps "token" to the response's token; on failure the store is unchanged; the key set grows by "token" at most; every other key keeps its value |
| Services.AuthService.constructor | client/src/app/services/auth.service.ts:13-15 | the service writes the storage it is given, under the key "token" |
| Services.AuthService.Login | client/src/app/services/auth.service.ts:17-28 | returns the response unmodified on both branches and leaves the store as `StoreAfterLogin` of the old store |
| Services.SuccessfulLoginIsReadBack | client/src/app/services/auth.service.ts:22-24 | logging in and then reading "token" through `getItem` yields the response's token after a success, and the earlier slot contents after a failure |
| Services.LastWriteWins | client/src/app/services/auth.service.ts:23 | a later successful login overwrites whatever an earlier login stored |
| Services.FailedLoginKeepsSession | client/src/app/services/auth.service.ts:22 | a failed login keeps the store left by the earlier login |
| RegisterPage.PasswordMatchValidator | client/src/app/pages/register/register.component.ts:85-95 | `null` exactly when password and confirmPassword are equal; `{passwordMismatch: true}` exactly when they differ |
| RegisterPage.ValidatorIsSymmetric | client/src/app/pages/register/register.component.ts:88-91 | swapping password and confirmPassword leaves the result unchanged |
| RegisterPage.ValidatorReadsOnlyPasswords | client/src/app/pages/register/register.component.ts:88-89 | two forms that agree on the two password fields get the same result, whatever their email, fullName or roles |
| RegisterPage.ErrorsAfter | client/src/app/pages/register/register.component.ts:56-57 | status 400 replaces `errors` with the response's error list; any other status keeps `errors` |
| RegisterPage.RegisterComponent.constructor | client/src/app/pages/register/register.component.ts:42 | `errors` starts unassigned |
| RegisterPage.RegisterComponent.OnRegisterError | client/src/app/pages/register/register.component.ts:55-63 | `errors` becomes `ErrorsAfter` of its old value; the only UI request is one "Validations error" notice, on status 400 only; no navigation happens |
| RegisterPage.RegisterComponent.OnRegisterNext | client/src/app/pages/register/register.component.ts:46-54 | opens one notice with the server's message, then navigates once to `/login` |
| Ui.Effects.Navigate | client/src/app/guards/role.guard.ts:15 | records one `router.navigate` request after all earlier requests (also used at lines 26 of the guard and 53 of the registration page) |
| Ui.Effects.Open | client/src/app/guards/role.guard.ts:17-19 | records one `matSnackBar.open` request after all earlier requests (also used at lines 27-29 of the guard and 49-52 and 58-61 of the registration page) |

## Left out

- The HTTP calls, the `apiUrl` setting and the RxJS `Observable`/`pipe`/`map`/`subscribe` plumbing are not modelled, because they are network and asynchronous library code. The callbacks take the already-received response as a parameter.
- `AuthService.register`, `isLoggedIn` and `getRoles` are not part of this model. Their results are parameters. Token decoding and expiry checks are therefore not modelled.
- `Router`, `MatSnackBar` and Angular dependency injection are not modelled. `Ui.Effects` only records what was asked of them. The snack bar's `horizontalPosition: 'center'` option on the registration page is not recorded.
- Guards.RoleGuard: the route's `data["roles"]` is taken to be a list. The source casts it without checking, and an undefined value would throw in `roles.some`. That exception is not modelled.
- Guards.RoleGuard: `getRoles()` is called before `isLoggedIn()` in the source. The model treats both results as plain values, so their order does not matter.
- RegisterPage.PasswordMatchValidator: control values are strings or absent. Non-string values and JavaScript's type coercion under `!=` are not modelled.
- RegisterPage.RegisterComponent.OnRegisterError: the error body of a 400 response is taken to be a list of validation errors. The source assigns whatever body arrives. The fields of `ValidationError` are not shown in the source, so the record `(code, description)` is an assumption.
- The `console.log` calls and the `complete` callback of `register()` are not modelled: they only write to the console.
- The form builder and the library validators `Validators.required` and `Validators.email` are not modelled, because their behaviour is not shown. The same goes for `roleService.getRoles()`.
- The login page component is not modelled: it only forwards to `AuthService.login` and shows messages.
- The server-side data-transfer objects `CreateRoleDto` and `ForgotPasswordDto` are not modelled. They only carry data-annotation attributes that the .NET framework interprets.
