# Financial control: a verified model of the backend core and the frontend state

This project models a personal-finance tracker in Dafny. The tracker has
two parts:

- a Spring backend. Users keep expenses and incomes. Every row belongs to one
  user, and the services check ownership against the authenticated user held
  in the security context.
- a React/Redux frontend that fetches those rows, keeps them in a `user`
  slice, and aggregates them for the dashboard.

The model covers the following.

- **Transaction services** (`ExpenseServiceImpl`, `IncomeServiceImpl`):
  - `Transactions.TransactionService` is a class over a `Store.Table` (rows
    keyed by id, their physical order, and the id sequence) and the security
    context holder.
  - The two services differ only in their messages, so one `Kind` parameter
    models both.
- **Repositories**: `findAllByUserId` (a filter by owner, then a stable sort
  on `createDate`, newest first), `findByUsername` (first match in physical
  order), `existsByUsername`, and JPA `save` (merge or insert).
- **Mappers**: the MapStruct annotations of `ExpenseMapper`/`IncomeMapper`
  (one module, `TransactionMapper`) and of `UserMapper`.
  - `PasswordEncoder.encode` is an uninterpreted function parameter; not even
    injectivity is assumed.
- **User management** (`UserManagementServiceImpl`) and **user lookup and
  registration** (`UserServiceImpl`):
  - classes whose methods state the whole new state of the user table and
    of the security context;
  - an effect trace (save, delete, refresh, clear) for stating the order of
    the side effects.
- **Security context** (`SecurityProviderImpl`, `CommonService`,
  `SecurityUtils`): the access check, reading the current user, and the
  refresh of the authentication after a password change.
- **Login** (`AuthServiceImpl.authenticate`):
  - the authentication manager, the context repository and the remember-me
    services are collaborators whose answers are parameters;
  - the service records every call it makes as an event.
- **Error translation** (`GlobalExceptionHandler`): the exception-to-response
  table. This includes `Collectors.toMap` building the validation map, which
  can itself throw.
- **Request validation**: the DTO Bean Validation annotations as validity
  predicates, plus a reporting function per DTO whose report is empty exactly
  when the request is valid. "Now" and the `@Email` check are parameters.
- **Frontend `user` slice** (`frontend/src/reducers/userReducer.js`) and its
  older version (`src/reducers/userReducer.js`):
  - each has a pure `Reduce(state, action)`;
  - each has a store class whose `Dispatch` assigns fields case by case, proved
    equal to `Reduce`;
  - the thunks' decisions from an HTTP reply to a fulfilled or rejected
    action are functions.
- **Frontend aggregation helpers** (`frontend/src/utils/Utils.js`):
  timestamp parsing, the period filter, grouping by category, and totals.
  `groupDataByCategory` is a method with a loop, proved against the
  specification function `Entries`.

Java `null` and a missing JavaScript property are `Lang.Option.None`. A Java
exception is a `Failure` value, carried in `Result`/`Outcome`. The JVM text of
a `NullPointerException` or `ClassCastException` is not modelled.

Where the code and its documentation disagree, the model follows the code:

- The transaction services check ownership only on `update`. They overwrite
  three fields unconditionally. Their unit tests describe a newer, mapper-based
  version that does more.
- `description` is bounded at 50 characters (`@Size(max = 50)`), not the 500 of
  its schema text.
- `UserServiceImpl.loadUserByUsername` throws the Russian message
  "Пользователь не найден", not the English text its unit test expects.

## Model

| member | source | states |
|---|---|---|
| Transactions.TransactionService.Get | backend/core/src/main/java/app/core/service/ExpenseServiceImpl.java:29-32 | an existing id yields the stored row and an unknown id EntityNotFound "Expense with id: <id>is not found!"; the current user is not consulted |
| Transactions.TransactionService.Create | backend/core/src/main/java/app/core/service/ExpenseServiceImpl.java:35-38 | the saved row's owner is the context's user whatever the argument carried, and it is stored under a fresh sequence id (or its own existing id); no authentication, or a principal that is not a user, fails and saves nothing; a null principal saves an ownerless row |
| Transactions.TransactionService.Delete | backend/core/src/main/java/app/core/service/ExpenseServiceImpl.java:41-45 | an unknown id gives EntityNotFound and no change; otherwise exactly that row is removed and no other, with no ownership check |
| Transactions.TransactionService.Update | backend/core/src/main/java/app/core/service/ExpenseServiceImpl.java:48-58 | existence is checked before ownership; a foreign or ownerless row fails with the store unchanged; success stores the row with amount, category and createDate overwritten (nulls included); id, description and owner are kept |
| Transactions.TransactionService.GetAll | backend/core/src/main/java/app/core/service/IncomeServiceImpl.java:60-63 | the result is exactly `findAllByUserId` of the table for the current user's id, or the failure of reading that id |
| Transactions.CheckOwner | backend/core/src/main/java/app/core/service/ExpenseServiceImpl.java:71-76 | passes iff the row's owner id is present and equals the current user's id; a different id gives AccessDenied "Access to this record is not allowed for current user", a missing owner, owner id or user gives a null dereference |
| Transactions.Overwrite | backend/core/src/main/java/app/core/service/IncomeServiceImpl.java:52-54 | the three overwritten fields come from the new entity; id, description and owner come from the stored row |
| Transactions.OverwriteIdempotent | backend/core/src/main/java/app/core/service/ExpenseServiceImpl.java:53-55 | overwriting twice with the same entity equals overwriting once, and overwriting with the row's own values changes nothing |
| Transactions.ForeignRowIsDenied | backend/core/src/main/java/app/core/service/IncomeServiceImpl.java:70-75 | a row owned by another user fails the check with AccessDenied |
| Transactions.OwnRowIsAllowed | backend/core/src/main/java/app/core/service/ExpenseServiceImpl.java:73 | the row's owner passes the check |
| Repositories.FindAllByUserId | backend/core/src/main/java/app/core/repository/ExpenseRepository.java:20-21 | the result is sorted newest first, is a permutation of the user's rows (each as often as stored), and contains only rows owned by that id; a null id matches nothing |
| Repositories.InsertByDateKeepsRows | backend/core/src/main/java/app/core/repository/IncomeRepository.java:20 | inserting into the sorted list adds exactly the one row (multisets) |
| Repositories.InsertByDateSorted | backend/core/src/main/java/app/core/repository/IncomeRepository.java:20 | insertion keeps the list sorted by createDate descending |
| Repositories.SortByDateCorrect | backend/core/src/main/java/app/core/repository/ExpenseRepository.java:20 | the sort returns a sorted permutation of its input |
| Repositories.FindAllReturnsEveryOwnedRow | backend/core/src/main/java/app/core/repository/IncomeRepository.java:20-21 | every row the user owns appears in the result as many times as it is stored |
| Repositories.FindAllEmptyWhenNothingOwned | backend/core/src/main/java/app/core/repository/ExpenseRepository.java:20-21 | a user who owns no rows gets the empty list, not an error |
| Repositories.FindByUsername | backend/core/src/main/java/app/core/repository/UserRepository.java:19-20 | present iff some row has exactly that (non-null) username; then it is the earliest-persisted such row |
| Repositories.FindByUsernameIgnoresOtherFields | backend/core/src/main/java/app/core/repository/UserRepository.java:19 | changing fields of a row other than its username does not change whether the lookup finds something |
| Repositories.ExistsByUsername | backend/core/src/main/java/app/core/service/UserServiceImpl.java:30 | true iff some row carries that username, a null one included |
| Repositories.ExistsAgreesWithFind | backend/core/src/main/java/app/core/service/UserServiceImpl.java:30 | for a non-null username, `existsByUsername` holds iff `findByUsername` is present |
| Repositories.ExistsAndFindDisagreeOnNull | backend/core/src/main/java/app/core/repository/UserRepository.java:19-20 | with a null username, a row with a null username makes the derived query true while the declared query finds nothing |
| TransactionMapper.Patch | backend/core/src/main/java/app/core/mappers/ExpenseMapper.java:19 | a non-null source value replaces the target and a null one leaves the target as it was |
| TransactionMapper.CreateFromRequest | backend/core/src/main/java/app/core/mappers/ExpenseMapper.java:13-15 | id and owner are unset; amount, category, createDate and description are copied verbatim, a null description included |
| TransactionMapper.UpdateFromRequest | backend/core/src/main/java/app/core/mappers/IncomeMapper.java:14-17 | id and owner never change; each other field is patched by the request's value, null meaning absent |
| TransactionMapper.ToResponse | backend/core/src/main/java/app/core/mappers/ExpenseMapper.java:22 | the response copies id, amount, category, createDate and description |
| TransactionMapper.UpdateWithNothingIsIdentity | backend/core/src/main/java/app/core/mappers/ExpenseMapper.java:19-20 | an all-null update request leaves the entity unchanged |
| TransactionMapper.UpdateIdempotent | backend/core/src/main/java/app/core/mappers/ExpenseMapper.java:19-20 | applying the same request twice equals applying it once |
| TransactionMapper.UpdatesCompose | backend/core/src/main/java/app/core/mappers/IncomeMapper.java:16-17 | two updates in a row equal one update with the second request patched over the first |
| TransactionMapper.ZeroAndEmptyOverwrite | backend/core/src/test/java/app/core/unit/mappers/ExpenseMapperUnitTest.java:131-154 | a zero amount and empty strings are values, not absence: they overwrite |
| TransactionMapper.CreateThenRespond | backend/core/src/test/java/app/core/unit/mappers/ExpenseMapperUnitTest.java:38-56 | the response of a freshly mapped request repeats the request's four fields with no id |
| TransactionMapper.ResponseHidesOwner | backend/core/src/main/java/app/core/model/dto/TransactionBaseResponseDto.java:13-28 | the response does not depend on the owner |
| UserMapper.Encode | backend/core/src/main/java/app/core/mappers/UserMapper.java:14 | a non-null password becomes its encoding; a null one makes the encoder throw IllegalArgument |
| UserMapper.CreateFromRequest | backend/core/src/main/java/app/core/mappers/UserMapper.java:13-17 | fails iff the password is null; otherwise id unset, password = encode(password), username and email copied, display name defaulted to the username when null or blank |
| UserMapper.UpdateFromRequest | backend/core/src/main/java/app/core/mappers/UserMapper.java:19-24 | id and username never change; a null password keeps the stored hash and any other, "" included, is encoded; display name and email change only for non-null values |
| UserMapper.ToResponse | backend/core/src/main/java/app/core/mappers/UserMapper.java:26 | the response copies id, username, display name and email |
| UserMapper.DisplayNameDefaulting | backend/core/src/main/java/app/core/mappers/UserMapper.java:15 | the display name is the username when the requested one is null or blank, and the requested one otherwise |
| UserMapper.BlankPasswordIsEncoded | backend/core/src/test/java/app/core/unit/mappers/UserMapperUnitTest.java:224-238 | a whitespace-only password is encoded, not refused |
| UserMapper.EmptyValuesOverwrite | backend/core/src/test/java/app/core/unit/mappers/UserMapperUnitTest.java:136-184 | empty password, display name and email overwrite, the password by its encoding |
| UserMapper.UpdateWithNothingIsIdentity | backend/core/src/main/java/app/core/mappers/UserMapper.java:21-23 | an update without password, display name or email leaves the user unchanged, whatever the confirmation |
| UserMapper.UpdateIdempotent | backend/core/src/main/java/app/core/mappers/UserMapper.java:19-24 | applying the same update twice equals applying it once |
| UserMapper.ResponseHidesPassword | backend/core/src/main/java/app/core/model/dto/UserResponseDto.java:8-19 | the response does not depend on the password hash |
| Users.LookupOwned | backend/core/src/main/java/app/core/service/UserManagementServiceImpl.java:68-73 | a null id is refused by `findById`, an unknown id gives EntityNotFound "User with id: <id> is not found!", and success means the id exists and passes the access check against the current user's id; then the stored user |
| Users.NotFoundBeforeAccess | backend/core/src/main/java/app/core/service/UserManagementServiceImpl.java:78-80 | for an unknown id the error is EntityNotFound and does not depend on who asks |
| Users.ForeignIdIsDenied | backend/core/src/test/java/app/core/unit/service/UserManagementServiceImplUnitTest.java:302-319 | another user's id is refused with AccessDenied |
| Users.OwnIdIsAllowed | backend/core/src/main/java/app/core/service/UserManagementServiceImpl.java:62-64 | the current user's own existing id always passes the lookup |
| Users.UpdateEffects | backend/core/src/main/java/app/core/service/UserManagementServiceImpl.java:82-88 | the save comes first; the authentication is refreshed iff a password was sent, and only right after a save |
| Users.UserManagementService.CreateUser | backend/core/src/main/java/app/core/service/UserManagementServiceImpl.java:35-46 | a taken username gives UserAlreadyExists "User with username '<u>' already exists" and saves nothing; otherwise exactly one mapped user is saved under the next id and the response is built from it |
| Users.UserManagementService.GetUser | backend/core/src/main/java/app/core/service/UserManagementServiceImpl.java:68-73 | the lookup's failure, or the response of the stored user; read-only |
| Users.UserManagementService.UpdateUser | backend/core/src/main/java/app/core/service/UserManagementServiceImpl.java:77-92 | a failed lookup changes nothing; otherwise the mapped update is saved under the same id, then the context's authentication is refreshed iff a password was sent, and the response is the updated user |
| Users.UserManagementService.DeleteUser | backend/core/src/main/java/app/core/service/UserManagementServiceImpl.java:96-105 | a failed lookup changes nothing; otherwise the row is deleted by id and then the context is cleared |
| Users.UserManagementService.GetCurrentUser | backend/core/src/main/java/app/core/service/UserManagementServiceImpl.java:62-64 | the current user's own record, failing only when the context yields no id or the user is gone |
| Users.UserManagementService.UpdateCurrentUser | backend/core/src/main/java/app/core/service/UserManagementServiceImpl.java:56-58 | `updateUser` for the current user's id; a context without a user fails before the repository is touched |
| Users.UserManagementService.DeleteCurrentUser | backend/core/src/main/java/app/core/service/UserManagementServiceImpl.java:50-52 | `deleteUser` for the current user's id; a context without a user fails before the repository is touched |
| Users.UserService.LoadUserByUsername | backend/core/src/main/java/app/core/service/UserServiceImpl.java:24-27 | succeeds iff a stored user has that username, returning one of them; otherwise UsernameNotFound "Пользователь не найден" |
| Users.UserService.CreateUser | backend/core/src/main/java/app/core/service/UserServiceImpl.java:29-42 | a taken username gives UserAlreadyExists and saves nothing; otherwise exactly one user is saved with that username, encode(rawPassword), the email and no display name |
| Security.AccessCheck | backend/core/src/main/java/app/core/utils/SecurityUtils.java:8-12 | passes iff the current id is non-null and equals the requested one; a different id gives AccessDenied "Access to this resource is not allowed for current user" |
| Security.CheckAccessSymmetric | backend/core/src/main/java/app/core/utils/SecurityUtils.java:9 | with both ids present the outcome depends only on their equality and is symmetric |
| Security.SecurityProvider.CheckAccess | backend/core/src/main/java/app/core/security/impl/SecurityProviderImpl.java:14-18 | the outcome is the access check's, and nothing changes |
| Security.UserFromContext | backend/core/src/main/java/app/core/service/CommonService.java:9-12 | no authentication dereferences null; a user principal is returned; a bare-name principal fails the cast; a null principal casts to null |
| Security.SecurityProvider.GetUserFromSecurityContext | backend/core/src/main/java/app/core/security/impl/SecurityProviderImpl.java:21-25 | returns the principal of the current authentication, as `UserFromContext` states |
| Security.CurrentUserId | backend/core/src/main/java/app/core/service/UserManagementServiceImpl.java:51 | the current user's id, or the failure of the cast or of a null user |
| Security.RefreshedAuthentication | backend/core/src/main/java/app/core/service/CommonService.java:17-20 | principal = the user, credentials = its password hash, empty authorities, the previous details, authenticated |
| Security.AfterRefresh | backend/core/src/main/java/app/core/service/CommonService.java:14-23 | no authentication stays none; otherwise it is replaced by the refreshed token |
| Security.RefreshThenRead | backend/core/src/main/java/app/core/security/impl/SecurityProviderImpl.java:28-37 | after a refresh, reading the context gives back that user and its id |
| Security.RefreshIdempotent | backend/core/src/main/java/app/core/security/impl/SecurityProviderImpl.java:28-37 | refreshing twice with the same user equals refreshing once |
| Security.SecurityProvider.UpdateAuthenticationInSecurityContext | backend/core/src/main/java/app/core/security/impl/SecurityProviderImpl.java:28-37 | the holder's new authentication is `AfterRefresh` of the old one |
| Security.SecurityContextHolder.SetAuthentication | backend/core/src/main/java/app/core/service/AuthServiceImpl.java:33-35 | the holder's authentication becomes the given one |
| Security.SecurityContextHolder.ClearContext | backend/core/src/main/java/app/core/service/UserManagementServiceImpl.java:102 | the holder holds no authentication afterwards |
| Entities.UserEntity.Authorities | backend/core/src/main/java/app/core/model/UserEntity.java:31-34 | always the empty list |
| Auth.LoginToken | backend/core/src/main/java/app/core/service/AuthServiceImpl.java:29 | an unauthenticated token carrying exactly the request's username and password, with no authorities or details |
| Auth.Login | backend/core/src/main/java/app/core/service/AuthServiceImpl.java:27-49 | the manager is asked first with the login token, and the run fails iff `loginFail` was called |
| Auth.AuthService.Authenticate | backend/core/src/main/java/app/core/service/AuthServiceImpl.java:27-49 | records the calls of `Login`, returns its outcome, and leaves the installed authentication in the holder (the old one when nothing was installed) |
| Auth.ManagerAskedOnceFirst | backend/core/src/main/java/app/core/service/AuthServiceImpl.java:29-31 | the manager is asked exactly once, first, with the unauthenticated request token |
| Auth.LoginSuccessIff | backend/core/src/test/java/app/core/unit/service/AuthServiceImplUnitTest.java:77-102 | with non-throwing collaborators, `loginSuccess` is called iff the result is authenticated and remember-me is set; an authenticated result is installed |
| Auth.LoginSuccessAfterSave | backend/core/src/main/java/app/core/service/AuthServiceImpl.java:36-39 | every `loginSuccess` immediately follows `saveContext` with the same authentication |
| Auth.NotAuthenticatedDoesNothing | backend/core/src/test/java/app/core/unit/service/AuthServiceImplUnitTest.java:124-140 | an unauthenticated result saves nothing, calls neither `loginSuccess` nor `loginFail`, installs nothing and returns normally |
| Auth.ManagerThrowsMeansNoSave | backend/core/src/test/java/app/core/unit/service/AuthServiceImplUnitTest.java:106-122 | when the manager throws, no context is saved or installed, `loginFail` runs, and the exception is rethrown unchanged |
| Auth.FailedSaveLeavesContextInstalled | backend/core/src/main/java/app/core/service/AuthServiceImpl.java:33-36 | a failing `saveContext` fails the login but leaves the new authentication in the thread's context |
| Handler.ToMap | backend/core/src/main/java/app/core/errorhandling/GlobalExceptionHandler.java:30-34 | succeeds iff every error has a message and no field repeats; a null message is a null dereference and a repeated field IllegalState; the map holds each field's message |
| Handler.ErrorMap | backend/core/src/main/java/app/core/errorhandling/GlobalExceptionHandler.java:30-34 | the validation map: keys are exactly the fields, each mapped to its message, when messages are present and fields distinct |
| Handler.Build | backend/core/src/main/java/app/core/errorhandling/GlobalExceptionHandler.java:77-81 | the given status and message, with the exception's message as cause |
| Handler.Handle | backend/core/src/main/java/app/core/errorhandling/GlobalExceptionHandler.java:28-75 | only a validation failure whose map cannot be built escapes the handler; every non-validation response's cause is the exception's message |
| Handler.StatusTable | backend/core/src/main/java/app/core/errorhandling/GlobalExceptionHandler.java:40-75 | 400 iff validation, 401 iff bad credentials or insufficient authentication, 404 iff entity or username not found, 409 iff data integrity or user exists, 500 for all the rest, access denial and unsupported methods included |
| Handler.MessageTable | backend/core/src/main/java/app/core/errorhandling/GlobalExceptionHandler.java:28-75 | each kind's `msg`: "Validation failed", "Invalid credentials", "Insufficient authentication", "Element not found", "Data violation on database", "User already exists" and "User not found" each iff its kind, "Something went wrong" iff the kind has no dedicated handler; every non-validation answer's cause is the exception's message |
| Handler.ToFieldErrors | backend/core/src/main/java/app/core/errorhandling/GlobalExceptionHandler.java:30 | one field error per violation, with that constraint's default message |
| Handler.ReportIsHandled | backend/core/src/main/java/app/core/errorhandling/GlobalExceptionHandler.java:28-38 | a report with one violation per field is answered 400 "Validation failed" with one entry per violated field, holding its message |
| Handler.InvalidRequestsAreBadRequests | backend/core/src/main/java/app/core/errorhandling/GlobalExceptionHandler.java:28-38 | the validators of all five request records never make the handler throw |
| Handler.RepeatedFieldBreaksHandler | backend/core/src/main/java/app/core/errorhandling/GlobalExceptionHandler.java:31-34 | two errors on one field make `toMap` throw IllegalState "Duplicate key …" inside the handler, so the 400 carries no field map |
| Handler.MissingMessageBreaksHandler | backend/core/src/main/java/app/core/errorhandling/GlobalExceptionHandler.java:33 | a field error without a message makes `toMap` throw |
| Handler.AccessDeniedIsServerError | backend/core/src/main/java/app/core/errorhandling/GlobalExceptionHandler.java:70-75 | as written, a foreign row's access denial is answered 500 "Something went wrong" |
| Handler.MethodNotSupportedIsServerError | backend/core/src/main/java/app/core/errorhandling/GlobalExceptionHandler.java:70-75 | as written, an unsupported method is answered 500 |
| Handler.HandleIntended | backend/core/src/main/java/app/core/controller/ExpenseController.java:32-45 | access denial is 403 and an unsupported method 405, each with its message as cause (the texts "Access denied" and "Method not allowed" are placeholders, since the controllers document only the codes); otherwise the declared table |
| Handler.OwnershipFailuresAreForbidden | backend/core/src/main/java/app/core/controller/ExpenseController.java:38 | with the corrected table, a foreign transaction row and a foreign user id are both answered 403 |
| Handler.IntendedRefinesDeclared | backend/core/src/main/java/app/core/errorhandling/GlobalExceptionHandler.java:28-81 | the corrected table answers access denial and unsupported methods with something other than 500 and agrees with the declared table on every other kind |
| Requests.NotNullCheck | backend/core/src/main/java/app/core/model/dto/CreateUserRequestDto.java:14 | at most one violation, on the field, present iff the value is null |
| Requests.SizeCheck | backend/core/src/main/java/app/core/model/dto/CreateUserRequestDto.java:26 | at most one violation, present iff a non-null string is out of bounds (UTF-16 length) |
| Requests.RequiredSizeCheck | backend/core/src/main/java/app/core/model/dto/AuthRequestDto.java:16 | at most one violation, absent iff the string is present and within bounds |
| Requests.EmailCheck | backend/core/src/main/java/app/core/model/dto/CreateUserRequestDto.java:30 | a null email is valid; otherwise it must satisfy the email oracle |
| Requests.PasswordMatchCheck | backend/core/src/main/java/app/core/model/dto/CreateUserRequestDto.java:32-38 | a violation iff the password is non-null and differs from the confirmation |
| Requests.DefaultMessage | backend/core/src/main/java/app/core/model/dto/CreateUserRequestDto.java:32 | every constraint has a non-empty message; the password match's is "Passwords don't match" |
| Requests.AppendDistinct | backend/core/src/main/java/app/core/errorhandling/GlobalExceptionHandler.java:31-34 | joining reports on disjoint fields keeps one violation per field |
| Requests.CreateTransactionViolations | backend/core/src/main/java/app/core/model/dto/CreateTransactionBaseRequestDto.java:17-29 | no violation iff amount is present and positive, category present (empty allowed), createDate present and not after now, and description at most 50 characters; one violation per field |
| Requests.UpdateTransactionViolations | backend/core/src/main/java/app/core/model/dto/UpdateTransactionBaseRequestDto.java:16-28 | no violation iff a present amount is positive, a present createDate not after now and a present description at most 50 characters; category is unconstrained |
| Requests.CreateUserViolations | backend/core/src/main/java/app/core/model/dto/CreateUserRequestDto.java:12-38 | no violation iff username, password (at least 4 characters) and confirmation are present, the display name has at most 128, the email passes, and the passwords match |
| Requests.UpdateUserViolations | backend/core/src/main/java/app/core/model/dto/UpdateUserRequestDto.java:11-33 | no violation iff a present password has at least 4 characters, a present display name at most 128, a present email passes, and the passwords match |
| Requests.AuthRequestViolations | backend/core/src/main/java/app/core/model/dto/AuthRequestDto.java:10-20 | no violation iff username and password are present and the password has at least 4 characters; rememberMe cannot be absent |
| Requests.NullPasswordAlwaysMatches | backend/core/src/main/java/app/core/model/dto/UpdateUserRequestDto.java:27-33 | a null password matches whatever the confirmation holds |
| Requests.EmptyCategoryAllowed | backend/core/src/main/java/app/core/model/dto/CreateTransactionBaseRequestDto.java:22 | an empty category passes creation |
| Requests.DescriptionBoundIsFifty | backend/core/src/main/java/app/core/model/dto/CreateTransactionBaseRequestDto.java:28-29 | a 51-character description is reported as a size violation: the bound is 50, not the schema's 500 |
| Js.StrictEquals | src/reducers/userReducer.js:50 | `===` holds only between equal primitives, never for NaN or objects |
| Js.MessageOr | src/reducers/userReducer.js:116 | a non-empty message is kept, and a missing or empty one is replaced by the fallback |
| Js.ErrorText | frontend/src/reducers/userReducer.js:35 | `new Error(null)` has the message "null", `new Error(undefined)` the empty one, and a string is kept |
| Utils.ParseDateToTimestamp | frontend/src/utils/Utils.js:2-28 | every falsy input is null; a non-zero number n gives n*1000; an all-digit string gives its value times 1000; any other string goes to the date parser; booleans and objects give null |
| Utils.SecondsAsStringOrNumber | frontend/src/utils/Utils.js:7-16 | a positive number of seconds and its decimal string give the same timestamp |
| Utils.ZeroNumberAndZeroString | frontend/src/utils/Utils.js:3-16 | the number 0 gives null while the string "0" gives 0 |
| Utils.CutoffOf | frontend/src/utils/Utils.js:31-79 | a cutoff exists iff the period is "left", "center" or "right" |
| Utils.FilterDataByPeriod | frontend/src/utils/Utils.js:31-79 | a non-array gives []; an unknown period returns the input; otherwise an order-preserving sub-list keeping exactly the items whose timestamp is non-null, non-zero and not before the cutoff, each kept item as often as it occurs in the input |
| Utils.WindowsNest | frontend/src/utils/Utils.js:42-73 | with cutoffs in calendar order, what the week keeps the month keeps, and what the month keeps the year keeps |
| Utils.CategoryOf | frontend/src/utils/Utils.js:86 | a missing or empty category is "Другое", so a label is never empty |
| Utils.GroupDataByCategory | frontend/src/utils/Utils.js:82-99 | a non-array gives []; otherwise the entries are `Entries` of the items: one per category in first-appearance order, label as id, value the category's sum with missing amounts as 0 |
| Utils.LabelsDistinct | frontend/src/utils/Utils.js:85-92 | each category is listed once |
| Utils.LabelsAreCategories | frontend/src/utils/Utils.js:85-92 | the labels are exactly the categories that occur |
| Utils.AbsentCategorySumsToZero | frontend/src/utils/Utils.js:88-90 | a category that never occurs sums to 0 |
| Utils.SumOverAppend | frontend/src/utils/Utils.js:85-92 | one more item adds its amount to the one listed category it belongs to |
| Utils.CategorySumsAddUpToTotal | frontend/src/utils/Utils.js:177-180 | the category sums add up to the total |
| Utils.SumValuesOfEntries | frontend/src/utils/Utils.js:94-98 | the entries' values add up to the sums of their categories |
| Utils.GroupingPreservesTotal | frontend/src/utils/Utils.js:177-180 | `calculateTotalAmount` is 0 for a non-array and otherwise equals the sum of `groupDataByCategory`'s values |
| Utils.EntriesAreDistinctSums | frontend/src/utils/Utils.js:85-98 | no two entries name the same category, and each carries its category's sum and its label as id |
| Utils.EntriesCoverCategories | frontend/src/utils/Utils.js:85-98 | every occurring category has an entry, and every entry names a category that occurs |
| Utils.CategorySumIsFilteredTotal | frontend/src/utils/Utils.js:85-92 | a category's sum is the total of the items in that category |
| UserSlice.UserStore.Dispatch | frontend/src/reducers/userReducer.js:125-271 | the fields after the case reducer's assignments are `Reduce` of the state before |
| UserSlice.UserStore.ApplySession | frontend/src/reducers/userReducer.js:127-190 | for `resetAuthState` and the login, logout and sign-up cases, the fields after the assignments are `Reduce` of the state before |
| UserSlice.UserStore.ApplyFetch | frontend/src/reducers/userReducer.js:193-227 | the same for the fetch cases, including the 401 sign-out |
| UserSlice.UserStore.ApplyCreate | frontend/src/reducers/userReducer.js:229-271 | the same for the creation cases, including the appended item with the form's date |
| UserSlice.FormSeconds | frontend/src/reducers/userReducer.js:233-246 | the form's milliseconds rounded down to seconds; an unparsable date gives NaN |
| UserSlice.FetchThunk | frontend/src/reducers/userReducer.js:40-60 | fulfilled iff not aborted and the status is 2xx, with the body; rejected with "Unauthorized" iff not aborted and the status is 401; every rejection has a message |
| UserSlice.FetchExpensesSignsOutOnlyOn401 | frontend/src/reducers/userReducer.js:193-209 | only a 401 reply to a request that was not aborted signs out and clears the expenses; an OK reply stores the body; incomes are never touched and loading ends |
| UserSlice.StatusThunk | frontend/src/reducers/userReducer.js:4-26 | fulfilled iff status 200, otherwise the fixed message |
| UserSlice.SignUpThunk | frontend/src/reducers/userReducer.js:28-38 | fulfilled iff status 200; otherwise the message is the text of the error header, "null" when it is missing |
| UserSlice.SignUpWithoutHeaderShowsNull | frontend/src/reducers/userReducer.js:35 | as written, a failed sign-up without an error header shows "null" instead of 'Registration failed.' |
| UserSlice.SignUpThunkIntended | frontend/src/reducers/userReducer.js:186-189 | fulfilled iff status 200; otherwise the error carries the header, absent when there is none |
| UserSlice.SignUpIntendedShowsHeaderOrFallback | frontend/src/reducers/userReducer.js:186-189 | with the intended thunk a failed sign-up shows the header if any and 'Registration failed.' otherwise |
| UserSlice.CreateThunk | frontend/src/reducers/userReducer.js:82-110 | fulfilled iff the reply is OK, with the created item; otherwise the reply's text, or the fixed message when it is empty |
| UserSlice.InitialStateIsSignedOut | frontend/src/reducers/userReducer.js:112-120 | the initial state has no expenses or incomes, is not authenticated, not checked, not loading, and has no error |
| UserSlice.ResetAuthStateClears | frontend/src/reducers/userReducer.js:127-133 | signs out, marks the check done and empties both lists and the error; the request and loading flags stay |
| UserSlice.LoginFulfilledSignsIn | frontend/src/reducers/userReducer.js:142-148 | signed in and checked, no request, loading or error, lists unchanged |
| UserSlice.LogoutKeepsIncomes | frontend/src/reducers/userReducer.js:160-166 | logout empties the expenses but keeps the incomes |
| UserSlice.CreateExpenseAppendsOne | frontend/src/reducers/userReducer.js:233-246 | exactly one item is appended at the end with the form's date in seconds; the prefix and the incomes are unchanged |
| UserSlice.RejectionsSetAnError | frontend/src/reducers/userReducer.js:137-271 | every rejection leaves a non-empty error message |
| UserSlice.FailedCreateStaysLoading | frontend/src/reducers/userReducer.js:247-249 | as written, a creation that goes pending and then is rejected leaves `isLoading` true |
| UserSlice.ReduceFixed | frontend/src/reducers/userReducer.js:247-249 | the intended reducer: the two creation rejections also lower `isLoading`; every other action is unchanged |
| UserSlice.SettledRequestsStopLoading | frontend/src/reducers/userReducer.js:137-271 | with the fix, every action that settles a loading request lowers `isLoading` and changes nothing else |
| LegacyUserSlice.LegacyStore.Dispatch | src/reducers/userReducer.js:88-185 | the fields after the case reducer's assignments are `Reduce` of the state before |
| LegacyUserSlice.LegacyStore.ApplySession | src/reducers/userReducer.js:92-154 | for `setUser` and the login, logout and sign-up cases, the fields after the assignments are `Reduce` of the state before |
| LegacyUserSlice.LegacyStore.ApplyFetch | src/reducers/userReducer.js:157-183 | the same for the fetch cases, which never sign the user out |
| LegacyUserSlice.ByUser | src/reducers/userReducer.js:49-51 | a falsy user id keeps all data; otherwise an order-preserving sub-list of exactly the items whose `user_id` is strictly equal to it, each as often as it occurs in the data |
| LegacyUserSlice.FetchThunk | src/reducers/userReducer.js:40-57 | fulfilled iff not aborted and status 200, with the filtered body; any other status gives 'Failed to get <noun>' |
| LegacyUserSlice.SetUserTakesPayload | src/reducers/userReducer.js:92-97 | signs in and takes expenses, incomes and name from the payload; nothing else changes |
| LegacyUserSlice.FalsyUserIdKeepsAll | src/reducers/userReducer.js:49-51 | null, undefined, 0 and "" user ids filter nothing |
| LegacyUserSlice.FetchedExpensesAreTheCallers | src/reducers/userReducer.js:47-52 | a stored fetch result is the whole filtered reply: an order-preserving sub-list holding exactly the caller's items, each as often as in the reply |
| LegacyUserSlice.FailedFetchKeepsSession | src/reducers/userReducer.js:166-169 | a failed fetch only lowers loading and sets 'Failed to get expenses'; the user stays signed in and the lists stay |
| LegacyUserSlice.StatusIsIgnored | src/reducers/userReducer.js:53-55 | the state after a failed fetch does not depend on the status |
| LegacyUserSlice.LoginRejectedDefaultsMessage | src/reducers/userReducer.js:113-118 | a rejected login signs out, and a missing or empty message becomes 'Authorization failed.' |

## Left out

- Users.LookupOwned: `findById(null)` is modelled as the IllegalArgument of the repository itself. Through Spring's repository proxy it arrives as an InvalidDataAccessApiUsageException with the same text "The given id must not be null"; the handler answers both with 500 and that cause.
- Amounts are unbounded integers. The backend's `Long` entity amount and `BigDecimal` request amount and their narrowing are not modelled; neither are the frontend's floating-point sums.
- Instants are integer milliseconds. Time zones, `OffsetDateTime` parsing and `new Date(string)` are not modelled: the last is a parameter of `Utils.ParseDateToTimestamp`.
- Utils.FilterDataByPeriod: the range limit of `Date` is not modelled. A timestamp beyond ±8.64e15 ms gives an Invalid Date in JavaScript, its comparison is false, and the item is dropped; `KeptSince` keeps such an item if it is at or after the cutoff.
- `parseInt` precision beyond 2^53 is not modelled: a digit string is read exactly.
- JPA column semantics (NOT NULL, `length = 128`, `updatable = false` on `createDate`) and `@Transactional` boundaries are not modelled. A save in the model never fails.
- The database sequence is one counter per table starting at 1. `save` with an id that no row has inserts under the next sequence value.
- Ties in `ORDER BY createDate DESC` keep physical order. NULL dates come first, as PostgreSQL does it; other databases differ.
- `findByUsername` returns the first match in physical order. A strict JPA provider would raise a non-unique-result error on duplicates.
- `existsByUsername` is not declared in `UserRepository`. It is read as the derived query with Spring Data's meaning.
- `UserServiceImpl` works with a `model.User`, and `ExpenseServiceImpl` casts its principal to `User`. Both are read as `UserEntity` here.
- The transaction-service unit tests target a newer version that is not part of this model. The model follows the code as written.
- An exception thrown inside an exception handler (the `toMap` failures) is returned as `Err`. Spring's fallback for it is not modelled.
- The JVM's own messages for null dereferences and failed casts are not modelled: their `cause` is absent.
- `@Email` is a parameter, not Hibernate's rule.
- Violation messages are Hibernate Validator's English defaults. The locale is not modelled.
- The security context is one holder; its thread-local storage and concurrent requests are not modelled. The last write wins.
- The controllers, framework configuration, BCrypt, remember-me expiry and dependency injection are not part of this model. `AuthController` calls an `authenticate` signature that `AuthServiceImpl` does not have.
- The frontend's network calls, abort signals and `createAsyncThunk` internals are not modelled. A thunk is modelled by the reply it receives.
- The React components, `store.js` persistence configuration and environment configuration are not part of this model.
- `getDataByTimePeriod` in `Utils.js` (chart buckets built from the clock) is not part of this model.
- `Utils.GroupDataByCategory`: entries are listed in first-appearance order. `Object.entries` puts integer-like keys such as "12" first, in numeric order, which is not modelled.
- `Utils.GroupDataByCategory`: categories named like `Object.prototype` members ("constructor", for example) are not modelled.
- Utils: `null` elements inside the arrays are not modelled; items are always records.
- `Utils.FilterDataByPeriod`: a period that is not a string is not modelled.
- JavaScript numbers are integers and NaN in `Js.JsValue`; fractional values are not modelled.
- The `@MappingTarget` updates mutate the entity in place. Here they are functions from the old entity to the new one, so aliasing of the loaded entity is not captured.
- `Users.UserService.LoadUserByUsername`: it promises a stored user with that name comparing usernames only, not necessarily the earliest one. `Repositories.FindByUsername` states which one.

## Findings

| source | as written | input that shows it | evidently intended | confidence | as-written member | corrected member |
|---|---|---|---|---|---|---|
| backend/core/src/main/java/app/core/errorhandling/GlobalExceptionHandler.java:70-75 | no handler for `AccessDeniedException` or `HttpRequestMethodNotSupportedException`, so both reach the catch-all and are answered 500 "Something went wrong" | `update` of an expense owned by another user raises AccessDenied "Access to this record is not allowed for current user" | 403 and 405, as the controllers' API responses document (ExpenseController.java:38 and :42) | not executed | Handler.AccessDeniedIsServerError | Handler.HandleIntended |
| frontend/src/reducers/userReducer.js:247-249 | the `fetchCreateExpense.rejected` and `fetchCreateIncome.rejected` cases set the error but never lower `isLoading`, which their pending cases raised | dispatch `fetchCreateExpense.pending`, then `fetchCreateExpense.rejected` | `isLoading` false after the rejection, like every other rejected case | not executed | UserSlice.FailedCreateStaysLoading | UserSlice.ReduceFixed |
| frontend/src/reducers/userReducer.js:35 | a failed sign-up throws `new Error(response.headers.get('error'))`; without that header the message is the string "null" | a sign-up reply with status 400 and no `error` header | the reducer's fallback 'Registration failed.' (line 188) | not executed | UserSlice.SignUpWithoutHeaderShowsNull | UserSlice.SignUpThunkIntended |
