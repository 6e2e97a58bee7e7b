/**
 * The persisted entities, the response shapes the mappers produce, and the
 * authentication tokens held by the security context.
 */
module Entities {
  import opened Lang

  /** A user row. `password` holds the hash, never the raw password. */
  datatype UserEntity = UserEntity(
    id: Option<int>,
    displayName: Option<string>,
    username: Option<string>,
    password: Option<string>,
    email: Option<string>)
  {
    /** `getAuthorities()`: always the empty list. */
    function Authorities(): (a: seq<string>)
      ensures a == []
    {
      []
    }
  }

  /** An income or expense row. Amounts and instants are integers: the
      source's `Long`/`BigDecimal` amounts and `OffsetDateTime` dates are
      compared and copied, never computed with. `user` is the owner. */
  datatype Txn = Txn(
    id: Option<int>,
    amount: Option<int>,
    category: Option<string>,
    createDate: Option<int>,
    description: Option<string>,
    user: Option<UserEntity>)

  /** The wire shape of a transaction; it has no owner field. */
  datatype TransactionResponse = TransactionResponse(
    id: Option<int>,
    amount: Option<int>,
    category: Option<string>,
    createDate: Option<int>,
    description: Option<string>)

  /** The wire shape of a user; it has no password field. */
  datatype UserResponse = UserResponse(
    id: Option<int>,
    username: Option<string>,
    displayName: Option<string>,
    email: Option<string>)

  /** What `Authentication.getPrincipal()` returns: null, a user entity, or
      (in a token built from a login form) the submitted username. */
  datatype Principal = NoPrincipal | UserPrincipal(user: UserEntity) | NamePrincipal(name: string)

  /** A `UsernamePasswordAuthenticationToken`. `details` is whatever the web
      layer attached (remote address, session id), kept opaque. */
  datatype Authentication = Authentication(
    principal: Principal,
    credentials: Option<string>,
    authorities: seq<string>,
    details: Option<string>,
    authenticated: bool)

  function PrincipalOf(u: Option<string>): Principal {
    match u
    case None => NoPrincipal
    case Some(name) => NamePrincipal(name)
  }
}
