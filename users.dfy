/**
 * `UserManagementServiceImpl` (the REST-facing user operations) and
 * `UserServiceImpl` (the `UserDetailsService` used by login).
 */
module Users {
  import opened Lang
  import opened Errors
  import opened Entities
  import opened Requests
  import opened Store
  import opened Repositories
  import opened Security
  import UserMapper

  /** Spring Data's `findById(null)` refuses a null id. */
  const NullIdMessage: string := "The given id must not be null"

  function UserNotFoundMessage(userId: Option<int>): string {
    "User with id: " + LongToJavaString(userId) + " is not found!"
  }

  function UserExistsMessage(username: Option<string>): string {
    "User with username '" + JavaString(username) + "' already exists"
  }

  /** The steps shared by get, update and delete: `findById(userId)`
      (line 69-70 and its twins), then `checkAccess(userId, current id)`.
      On success, the stored user. */
  function LookupOwned(rows: map<int, UserEntity>, userId: Option<int>, auth: Option<Authentication>): (r: Result<UserEntity>)
    ensures userId.None? ==> r == Err(IllegalArgument(NullIdMessage))
    ensures userId.Some? && userId.value !in rows ==> r == Err(EntityNotFound(UserNotFoundMessage(userId)))
    ensures r.Ok? <==> && userId.Some? && userId.value in rows
                       && CurrentUserId(auth).Ok? && AccessCheck(userId, CurrentUserId(auth).value).Pass?
    ensures r.Ok? ==> r.value == rows[userId.value]
  {
    if userId.None? then Err(IllegalArgument(NullIdMessage))
    else if userId.value !in rows then Err(EntityNotFound(UserNotFoundMessage(userId)))
    else
      match CurrentUserId(auth)
      case Err(f) => Err(f)
      case Ok(current) =>
        match AccessCheck(userId, current)
        case Fail(f) => Err(f)
        case Pass => Ok(rows[userId.value])
  }

  /** A missing user is reported before the access check: the error for
      an unknown id never depends on who asks. */
  lemma NotFoundBeforeAccess(rows: map<int, UserEntity>, id: int, a1: Option<Authentication>, a2: Option<Authentication>)
    requires id !in rows
    ensures LookupOwned(rows, Some(id), a1) == LookupOwned(rows, Some(id), a2)
    ensures LookupOwned(rows, Some(id), a1).Err? && LookupOwned(rows, Some(id), a1).failure.EntityNotFound?
  {
  }

  /** Another user's id is refused with AccessDenied. */
  lemma ForeignIdIsDenied(rows: map<int, UserEntity>, id: int, auth: Option<Authentication>)
    requires id in rows && CurrentUserId(auth).Ok? && CurrentUserId(auth).value.Some?
    requires CurrentUserId(auth).value != Some(id)
    ensures LookupOwned(rows, Some(id), auth) == Err(AccessDenied(ResourceAccessDenied))
  {
  }

  /** The side effects of the user operations, in the order they happen. */
  datatype Effect = Saved(user: UserEntity) | DeletedById(id: int) | AuthenticationRefreshed(user: UserEntity) | ContextCleared

  /** What a successful `updateUser` does: the save, then, for a new
      password, the refresh with the updated user. */
  function UpdateEffects(updated: UserEntity, req: UpdateUserRequest): (e: seq<Effect>)
    ensures |e| >= 1 && e[0] == Saved(updated)
    ensures AuthenticationRefreshed(updated) in e <==> req.password.Some?
    ensures forall i :: 0 <= i < |e| && e[i].AuthenticationRefreshed? ==> i > 0 && e[i - 1].Saved?
  {
    [Saved(updated)] + if req.password.Some? then [AuthenticationRefreshed(updated)] else []
  }

  class UserManagementService {
    const users: Table<UserEntity>
    const provider: SecurityProvider
    const encode: UserMapper.Encoder
    /** The record of effects, for stating their order. */
    var effects: seq<Effect>

    ghost predicate Valid()
      reads this, users
    {
      users.Valid() && UserIdsConsistent(users.rows)
    }

    constructor (users: Table<UserEntity>, provider: SecurityProvider, encode: UserMapper.Encoder)
      requires users.Valid() && UserIdsConsistent(users.rows)
      ensures this.users == users && this.provider == provider && this.encode == encode
      ensures Valid()
    {
      this.users := users;
      this.provider := provider;
      this.encode := encode;
      effects := [];
    }

    /** `createUser`: refuses a taken username and saves nothing; otherwise
        saves the mapped user under a fresh id and answers with it. */
    method CreateUser(req: CreateUserRequest) returns (r: Result<UserResponse>)
      requires Valid()
      modifies this, users
      ensures Valid()
      ensures r.Err? ==> users.rows == old(users.rows) && effects == old(effects)
      ensures FindByUsername(old(users.Contents()), req.username).Some? ==>
                r == Err(UserAlreadyExists(UserExistsMessage(req.username)))
      ensures FindByUsername(old(users.Contents()), req.username).None? && req.password.None? ==>
                r == Err(IllegalArgument(UserMapper.NullRawPassword))
      ensures FindByUsername(old(users.Contents()), req.username).None? && req.password.Some? ==>
                var saved := UserMapper.CreateFromRequest(req, encode).value.(id := Some(old(users.nextId)));
                && users.rows == old(users.rows)[old(users.nextId) := saved]
                && effects == old(effects) + [Saved(saved)]
                && r == Ok(UserMapper.ToResponse(saved))
    {
      var existing := FindByUsername(users.Contents(), req.username);
      if existing.Some? {
        return Err(UserAlreadyExists(UserExistsMessage(req.username)));
      }
      var mapped := UserMapper.CreateFromRequest(req, encode);
      if mapped.Err? {
        return Err(mapped.failure);
      }
      var saved := SaveUser(users, mapped.value);
      effects := effects + [Saved(saved)];
      r := Ok(UserMapper.ToResponse(saved));
    }

    /** `getUser(userId)`: changes nothing. */
    method GetUser(userId: Option<int>) returns (r: Result<UserResponse>)
      requires Valid()
      ensures var found := LookupOwned(users.rows, userId, provider.holder.authentication);
              && (found.Err? ==> r == Err(found.failure))
              && (found.Ok? ==> r == Ok(UserMapper.ToResponse(found.value)))
    {
      var found := LookupOwned(users.rows, userId, provider.holder.authentication);
      if found.Err? {
        return Err(found.failure);
      }
      r := Ok(UserMapper.ToResponse(found.value));
    }

    /** `updateUser(userId, req)`: lookup and access check, then the
        mapper's update and the save (an overwrite of the same key), then,
        when a new password was sent, the refresh of the context's
        authentication with the updated user. A failure changes nothing. */
    method UpdateUser(userId: Option<int>, req: UpdateUserRequest) returns (r: Result<UserResponse>)
      requires Valid()
      modifies this, users, provider.holder
      ensures Valid()
      ensures var found := LookupOwned(old(users.rows), userId, old(provider.holder.authentication));
              && (found.Err? ==> && r == Err(found.failure)
                                 && users.rows == old(users.rows) && effects == old(effects)
                                 && provider.holder.authentication == old(provider.holder.authentication))
              && (found.Ok? ==>
                    var updated := UserMapper.UpdateFromRequest(req, found.value, encode);
                    && users.rows == old(users.rows)[userId.value := updated]
                    && effects == old(effects) + UpdateEffects(updated, req)
                    && r == Ok(UserMapper.ToResponse(updated))
                    && provider.holder.authentication
                       == if req.password.Some? then AfterRefresh(old(provider.holder.authentication), updated)
                          else old(provider.holder.authentication))
    {
      var found := LookupOwned(users.rows, userId, provider.holder.authentication);
      if found.Err? {
        return Err(found.failure);
      }
      var userEntity := UserMapper.UpdateFromRequest(req, found.value, encode);
      var saved := SaveUser(users, userEntity);
      effects := effects + [Saved(saved)];
      if req.password.Some? {
        provider.UpdateAuthenticationInSecurityContext(userEntity);
        effects := effects + [AuthenticationRefreshed(userEntity)];
      }
      r := Ok(UserMapper.ToResponse(saved));
    }

    /** `deleteUser(userId)`: lookup and access check, then `deleteById`,
        then `clearContext`. A failure changes nothing. */
    method DeleteUser(userId: Option<int>) returns (o: Outcome)
      requires Valid()
      modifies this, users, provider.holder
      ensures Valid()
      ensures var found := LookupOwned(old(users.rows), userId, old(provider.holder.authentication));
              && (found.Err? ==> && o == Fail(found.failure)
                                 && users.rows == old(users.rows) && effects == old(effects)
                                 && provider.holder.authentication == old(provider.holder.authentication))
              && (found.Ok? ==> && o == Pass
                                && users.rows == old(users.rows) - {userId.value}
                                && effects == old(effects) + [DeletedById(userId.value), ContextCleared]
                                && provider.holder.authentication.None?)
    {
      var found := LookupOwned(users.rows, userId, provider.holder.authentication);
      if found.Err? {
        return Fail(found.failure);
      }
      users.Remove(userId.value);
      effects := effects + [DeletedById(userId.value)];
      provider.holder.ClearContext();
      effects := effects + [ContextCleared];
      o := Pass;
    }

    /** `getCurrentUser`: the current user's own record, which always
        passes the access check; it fails only when the context yields no
        user id or the user is gone. Changes nothing. */
    method GetCurrentUser() returns (r: Result<UserResponse>)
      requires Valid()
      ensures CurrentUserId(provider.holder.authentication).Err? ==>
                r == Err(CurrentUserId(provider.holder.authentication).failure)
      ensures CurrentUserId(provider.holder.authentication).Ok? ==>
                var id := CurrentUserId(provider.holder.authentication).value;
                && (id.None? ==> r == Err(IllegalArgument(NullIdMessage)))
                && (id.Some? && id.value !in users.rows ==> r == Err(EntityNotFound(UserNotFoundMessage(id))))
                && (id.Some? && id.value in users.rows ==> r == Ok(UserMapper.ToResponse(users.rows[id.value])))
    {
      var current := provider.GetUserFromSecurityContext();
      if current.Err? {
        return Err(current.failure);
      }
      if current.value.None? {
        return Err(NullPointer);
      }
      r := GetUser(current.value.value.id);
    }

    /** `updateCurrentUser`: `updateUser` for the current user's id. A
        context that yields no id fails before the repository is touched. */
    method UpdateCurrentUser(req: UpdateUserRequest) returns (r: Result<UserResponse>)
      requires Valid()
      modifies this, users, provider.holder
      ensures Valid()
      ensures CurrentUserId(old(provider.holder.authentication)).Err? ==>
                && r == Err(CurrentUserId(old(provider.holder.authentication)).failure)
                && users.rows == old(users.rows) && effects == old(effects)
                && provider.holder.authentication == old(provider.holder.authentication)
      ensures CurrentUserId(old(provider.holder.authentication)).Ok? ==>
                var id := CurrentUserId(old(provider.holder.authentication)).value;
                var found := LookupOwned(old(users.rows), id, old(provider.holder.authentication));
                && (found.Err? ==> && r == Err(found.failure)
                                   && users.rows == old(users.rows) && effects == old(effects)
                                   && provider.holder.authentication == old(provider.holder.authentication))
                && (found.Ok? ==>
                      var updated := UserMapper.UpdateFromRequest(req, found.value, encode);
                      && users.rows == old(users.rows)[id.value := updated]
                      && effects == old(effects) + UpdateEffects(updated, req)
                      && r == Ok(UserMapper.ToResponse(updated))
                      && provider.holder.authentication
                         == if req.password.Some? then AfterRefresh(old(provider.holder.authentication), updated)
                            else old(provider.holder.authentication))
    {
      var current := provider.GetUserFromSecurityContext();
      if current.Err? {
        return Err(current.failure);
      }
      if current.value.None? {
        return Err(NullPointer);
      }
      r := UpdateUser(current.value.value.id, req);
    }

    /** `deleteCurrentUser`: `deleteUser` for the current user's id. */
    method DeleteCurrentUser() returns (o: Outcome)
      requires Valid()
      modifies this, users, provider.holder
      ensures Valid()
      ensures CurrentUserId(old(provider.holder.authentication)).Err? ==>
                && o == Fail(CurrentUserId(old(provider.holder.authentication)).failure)
                && users.rows == old(users.rows) && effects == old(effects)
                && provider.holder.authentication == old(provider.holder.authentication)
      ensures CurrentUserId(old(provider.holder.authentication)).Ok? ==>
                var id := CurrentUserId(old(provider.holder.authentication)).value;
                var found := LookupOwned(old(users.rows), id, old(provider.holder.authentication));
                && (found.Err? ==> && o == Fail(found.failure)
                                   && users.rows == old(users.rows) && effects == old(effects)
                                   && provider.holder.authentication == old(provider.holder.authentication))
                && (found.Ok? ==> o == Pass && users.rows == old(users.rows) - {id.value}
                                  && effects == old(effects) + [DeletedById(id.value), ContextCleared]
                                  && provider.holder.authentication.None?)
    {
      var current := provider.GetUserFromSecurityContext();
      if current.Err? {
        return Fail(current.failure);
      }
      if current.value.None? {
        return Fail(NullPointer);
      }
      o := DeleteUser(current.value.value.id);
    }
  }

  /** The current user always passes the access check on their own id. */
  lemma OwnIdIsAllowed(rows: map<int, UserEntity>, auth: Option<Authentication>)
    requires CurrentUserId(auth).Ok? && CurrentUserId(auth).value.Some?
    requires CurrentUserId(auth).value.value in rows
    ensures LookupOwned(rows, CurrentUserId(auth).value, auth) == Ok(rows[CurrentUserId(auth).value.value])
  {
  }

  // ---- UserServiceImpl ----

  /** The message `loadUserByUsername` throws, verbatim. */
  const UserNotFoundRu: string := "Пользователь не найден"

  function UserExistsRu(username: Option<string>): string {
    "Пользователь с username '" + JavaString(username) + "' уже существует"
  }

  class UserService {
    const users: Table<UserEntity>
    const encode: UserMapper.Encoder

    ghost predicate Valid()
      reads this, users
    {
      users.Valid() && UserIdsConsistent(users.rows)
    }

    constructor (users: Table<UserEntity>, encode: UserMapper.Encoder)
      requires users.Valid() && UserIdsConsistent(users.rows)
      ensures this.users == users && this.encode == encode
      ensures Valid()
    {
      this.users := users;
      this.encode := encode;
    }

    /** `loadUserByUsername`: the earliest-persisted user with that name,
        or UsernameNotFound. Changes nothing. */
    method LoadUserByUsername(username: Option<string>) returns (r: Result<UserEntity>)
      requires Valid()
      ensures r.Ok? <==> username.Some? && exists u :: u in users.Contents() && u.username == username
      ensures r.Ok? ==> r.value in users.Contents() && r.value.username == username
      ensures r.Err? ==> r.failure == UsernameNotFound(UserNotFoundRu)
    {
      var found := FindByUsername(users.Contents(), username);
      if found.None? {
        return Err(UsernameNotFound(UserNotFoundRu));
      }
      r := Ok(found.value);
    }

    /** `createUser(username, rawPassword, email)`: refuses a taken
        username (a null username is taken when some stored user has a null
        one); otherwise saves one user with that username, the encoded
        password and the email, and no display name. */
    method CreateUser(username: Option<string>, rawPassword: Option<string>, email: Option<string>) returns (o: Outcome)
      requires Valid()
      modifies users
      ensures Valid()
      ensures ExistsByUsername(old(users.Contents()), username) ==>
                o == Fail(UserAlreadyExists(UserExistsRu(username))) && users.rows == old(users.rows)
      ensures !ExistsByUsername(old(users.Contents()), username) && rawPassword.None? ==>
                o == Fail(IllegalArgument(UserMapper.NullRawPassword)) && users.rows == old(users.rows)
      ensures !ExistsByUsername(old(users.Contents()), username) && rawPassword.Some? ==>
                && o == Pass
                && users.rows == old(users.rows)[old(users.nextId) :=
                     UserEntity(Some(old(users.nextId)), None, username, Some(encode(rawPassword.value)), email)]
    {
      if ExistsByUsername(users.Contents(), username) {
        return Fail(UserAlreadyExists(UserExistsRu(username)));
      }
      var hash := UserMapper.Encode(encode, rawPassword);
      if hash.Err? {
        return Fail(hash.failure);
      }
      var newUser := UserEntity(None, None, username, Some(hash.value), email);
      var _ := SaveUser(users, newUser);
      o := Pass;
    }
  }
}
