/**
 * The security context and the helpers that read and replace it.
 * `SecurityProviderImpl`, the unused `CommonService` and `SecurityUtils`
 * implement the same rules; the functions here state them once.
 */
module Security {
  import opened Lang
  import opened Errors
  import opened Entities

  const ResourceAccessDenied: string := "Access to this resource is not allowed for current user"

  /** `checkAccess(requested, current)`: `current.equals(requested)`, so a
      null current id dereferences null, and a null requested id never
      equals a non-null one. */
  function AccessCheck(requested: Option<int>, current: Option<int>): (o: Outcome)
    ensures o.Pass? <==> current.Some? && requested == current
    ensures current.None? ==> o == Fail(NullPointer)
    ensures current.Some? && requested != current ==> o == Fail(AccessDenied(ResourceAccessDenied))
  {
    match current
    case None => Fail(NullPointer)
    case Some(c) => if requested == Some(c) then Pass else Fail(AccessDenied(ResourceAccessDenied))
  }

  /** Once both ids are present the check depends only on their equality. */
  lemma CheckAccessSymmetric(a: int, b: int)
    ensures AccessCheck(Some(a), Some(b)) == AccessCheck(Some(b), Some(a))
    ensures AccessCheck(Some(a), Some(b)).Pass? <==> a == b
  {
  }

  /** `(UserEntity) getContext().getAuthentication().getPrincipal()`: a
      missing authentication dereferences null, a principal that is not a
      user (the bare name of a form login or of an anonymous token) fails
      the cast, and a null principal casts to null. */
  function UserFromContext(auth: Option<Authentication>): (r: Result<Option<UserEntity>>)
    ensures auth.None? ==> r == Err(NullPointer)
    ensures r.Ok? && r.value.Some? <==> auth.Some? && auth.value.principal.UserPrincipal?
    ensures r.Ok? && r.value.Some? ==> r.value.value == auth.value.principal.user
    ensures auth.Some? && auth.value.principal.NamePrincipal? ==> r == Err(ClassCast)
    ensures auth.Some? && auth.value.principal.NoPrincipal? ==> r == Ok(None)
  {
    match auth
    case None => Err(NullPointer)
    case Some(a) =>
      match a.principal
      case NoPrincipal => Ok(None)
      case UserPrincipal(u) => Ok(Some(u))
      case NamePrincipal(_) => Err(ClassCast)
  }

  /** `getUserFromSecurityContext().getId()`: the current user's id, with
      a null user dereferenced. */
  function CurrentUserId(auth: Option<Authentication>): (r: Result<Option<int>>)
    ensures r.Ok? <==> UserFromContext(auth).Ok? && UserFromContext(auth).value.Some?
    ensures r.Ok? ==> r.value == UserFromContext(auth).value.value.id
  {
    match UserFromContext(auth)
    case Err(f) => Err(f)
    case Ok(None) => Err(NullPointer)
    case Ok(Some(u)) => Ok(u.id)
  }

  /** The token `updateAuthenticationInSecurityContext` installs: the user
      as principal, its password hash as credentials, its (empty)
      authorities, the previous token's details, and authenticated (the
      three-argument constructor marks it so). */
  function RefreshedAuthentication(current: Authentication, user: UserEntity): (a: Authentication)
    ensures a.principal == UserPrincipal(user)
    ensures a.credentials == user.password
    ensures a.authorities == user.Authorities() == []
    ensures a.details == current.details
    ensures a.authenticated
  {
    Authentication(UserPrincipal(user), user.password, user.Authorities(), current.details, true)
  }

  /** The context's authentication after the refresh: unchanged when
      there is none, otherwise the refreshed token. */
  function AfterRefresh(auth: Option<Authentication>, user: UserEntity): (r: Option<Authentication>)
    ensures auth.None? ==> r.None?
    ensures auth.Some? ==> r == Some(RefreshedAuthentication(auth.value, user))
  {
    match auth
    case None => None
    case Some(a) => Some(RefreshedAuthentication(a, user))
  }

  /** After a refresh, reading the user from the context gives back the
      user it was refreshed with. */
  lemma RefreshThenRead(auth: Authentication, user: UserEntity)
    ensures UserFromContext(AfterRefresh(Some(auth), user)) == Ok(Some(user))
    ensures CurrentUserId(AfterRefresh(Some(auth), user)) == Ok(user.id)
  {
  }

  /** Refreshing twice with the same user is refreshing once. */
  lemma RefreshIdempotent(auth: Option<Authentication>, user: UserEntity)
    ensures AfterRefresh(AfterRefresh(auth, user), user) == AfterRefresh(auth, user)
  {
  }

  /** `SecurityContextHolder` with its (thread-local) context reduced to
      the one authentication it holds. */
  class SecurityContextHolder {
    var authentication: Option<Authentication>

    constructor (initial: Option<Authentication>)
      ensures authentication == initial
    {
      authentication := initial;
    }

    /** `setContext(context)` / `getContext().setAuthentication(a)`. */
    method SetAuthentication(a: Option<Authentication>)
      modifies this
      ensures authentication == a
    {
      authentication := a;
    }

    /** `clearContext()`. */
    method ClearContext()
      modifies this
      ensures authentication.None?
    {
      authentication := None;
    }
  }

  /** `SecurityProviderImpl`, over the holder it reads and writes. */
  class SecurityProvider {
    const holder: SecurityContextHolder

    constructor (holder: SecurityContextHolder)
      ensures this.holder == holder
    {
      this.holder := holder;
    }

    /** Changes nothing; only the outcome depends on the ids. */
    method CheckAccess(requested: Option<int>, current: Option<int>) returns (o: Outcome)
      ensures o == AccessCheck(requested, current)
    {
      match current {
        case None => o := Fail(NullPointer);
        case Some(c) =>
          if !(requested == Some(c)) {
            o := Fail(AccessDenied(ResourceAccessDenied));
          } else {
            o := Pass;
          }
      }
    }

    method GetUserFromSecurityContext() returns (r: Result<Option<UserEntity>>)
      ensures r == UserFromContext(holder.authentication)
    {
      var auth := holder.authentication;
      if auth.None? {
        return Err(NullPointer);
      }
      match auth.value.principal {
        case NoPrincipal => r := Ok(None);
        case UserPrincipal(u) => r := Ok(Some(u));
        case NamePrincipal(_) => r := Err(ClassCast);
      }
    }

    method UpdateAuthenticationInSecurityContext(user: UserEntity)
      modifies holder
      ensures holder.authentication == AfterRefresh(old(holder.authentication), user)
    {
      var current := holder.authentication;
      if current.Some? {
        var newAuth := Authentication(UserPrincipal(user), user.password, user.Authorities(), None, true);
        newAuth := newAuth.(details := current.value.details);
        holder.SetAuthentication(Some(newAuth));
      }
    }
  }
}
