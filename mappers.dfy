/**
 * The MapStruct mappers. `ExpenseMapper` and `IncomeMapper` declare the
 * same mappings over entities of the same shape, so one module models
 * both. The in-place `@MappingTarget` updates are modelled as functions
 * from the old entity to the updated one.
 */
module TransactionMapper {
  import opened Lang
  import opened Entities
  import opened Requests

  /** `NullValuePropertyMappingStrategy.IGNORE`: a null source property
      leaves the target property as it was; any other value, `0` and `""`
      included, replaces it. */
  function Patch<T>(target: Option<T>, source: Option<T>): (r: Option<T>)
    ensures source.Some? ==> r == source
    ensures source.None? ==> r == target
  {
    if source.Some? then source else target
  }

  /** `create…FromRequest`: id and user are ignored, the rest is copied. */
  function CreateFromRequest(r: CreateTransactionRequest): (t: Txn)
    ensures t.id.None? && t.user.None?
    ensures t.amount == r.amount && t.category == r.category
    ensures t.createDate == r.createDate && t.description == r.description
  {
    Txn(None, r.amount, r.category, r.createDate, r.description, None)
  }

  /** `update…FromRequest`: id and user are ignored; every non-null
      request property overwrites the entity's. */
  function UpdateFromRequest(r: UpdateTransactionRequest, t: Txn): (u: Txn)
    ensures u.id == t.id && u.user == t.user
    ensures u.amount == Patch(t.amount, r.amount) && u.category == Patch(t.category, r.category)
    ensures u.createDate == Patch(t.createDate, r.createDate)
    ensures u.description == Patch(t.description, r.description)
  {
    t.(amount := Patch(t.amount, r.amount),
       category := Patch(t.category, r.category),
       createDate := Patch(t.createDate, r.createDate),
       description := Patch(t.description, r.description))
  }

  /** `toResponse`: every field but the owner. */
  function ToResponse(t: Txn): (r: TransactionResponse)
    ensures r.id == t.id && r.amount == t.amount && r.category == t.category
    ensures r.createDate == t.createDate && r.description == t.description
  {
    TransactionResponse(t.id, t.amount, t.category, t.createDate, t.description)
  }

  /** A request whose properties are all null changes nothing. */
  lemma UpdateWithNothingIsIdentity(t: Txn)
    ensures UpdateFromRequest(UpdateTransactionRequest(None, None, None, None), t) == t
  {
  }

  /** Applying the same request twice is applying it once. */
  lemma UpdateIdempotent(r: UpdateTransactionRequest, t: Txn)
    ensures UpdateFromRequest(r, UpdateFromRequest(r, t)) == UpdateFromRequest(r, t)
  {
  }

  /** Two updates in a row are one update whose request takes each
      property from the second request where it is set, else the first. */
  lemma UpdatesCompose(r1: UpdateTransactionRequest, r2: UpdateTransactionRequest, t: Txn)
    ensures UpdateFromRequest(r2, UpdateFromRequest(r1, t))
         == UpdateFromRequest(UpdateTransactionRequest(
              Patch(r1.amount, r2.amount), Patch(r1.category, r2.category),
              Patch(r1.createDate, r2.createDate), Patch(r1.description, r2.description)), t)
  {
  }

  /** Zero and the empty string are values, not absence: they overwrite. */
  lemma ZeroAndEmptyOverwrite(t: Txn)
    ensures var u := UpdateFromRequest(UpdateTransactionRequest(Some(0), Some(""), None, Some("")), t);
            u.amount == Some(0) && u.category == Some("") && u.description == Some("")
            && u.createDate == t.createDate
  {
  }

  /** The response of a freshly mapped entity repeats the request, with no id. */
  lemma CreateThenRespond(r: CreateTransactionRequest)
    ensures ToResponse(CreateFromRequest(r))
         == TransactionResponse(None, r.amount, r.category, r.createDate, r.description)
  {
  }

  /** The response does not depend on the owner. */
  lemma ResponseHidesOwner(t: Txn, owner: Option<UserEntity>)
    ensures ToResponse(t.(user := owner)) == ToResponse(t)
  {
  }
}

module UserMapper {
  import opened Lang
  import opened Errors
  import opened Entities
  import opened Requests

  /** `PasswordEncoder.encode` on a non-null password. Nothing is assumed
      of it, not even injectivity. */
  type Encoder = string -> string

  /** What the configured BCrypt encoder throws for a null password. */
  const NullRawPassword: string := "rawPassword cannot be null"

  /** `encode(raw)`: a null raw password is refused by the encoder. */
  function Encode(encode: Encoder, raw: Option<string>): (r: Result<string>)
    ensures raw.None? ==> r == Err(IllegalArgument(NullRawPassword))
    ensures raw.Some? ==> r == Ok(encode(raw.value))
  {
    match raw
    case None => Err(IllegalArgument(NullRawPassword))
    case Some(p) => Ok(encode(p))
  }

  /** The display name a new user gets: the request's, unless it is null
      or blank, in which case the username. */
  function DefaultDisplayName(displayName: Option<string>, username: Option<string>): Option<string> {
    if displayName.None? || IsBlank(displayName.value) then username else displayName
  }

  /** `createUserFromRequest`: id unset, the password encoded, the display
      name defaulted, username and email copied. */
  function CreateFromRequest(r: CreateUserRequest, encode: Encoder): (res: Result<UserEntity>)
    ensures res.Err? <==> r.password.None?
    ensures res.Err? ==> res.failure == IllegalArgument(NullRawPassword)
    ensures res.Ok? ==> && res.value.id.None?
                        && res.value.password == Some(encode(r.password.value))
                        && res.value.username == r.username
                        && res.value.email == r.email
                        && res.value.displayName == DefaultDisplayName(r.displayName, r.username)
  {
    match Encode(encode, r.password)
    case Err(f) => Err(f)
    case Ok(hash) =>
      Ok(UserEntity(None, DefaultDisplayName(r.displayName, r.username), r.username, Some(hash), r.email))
  }

  /** `updateUserFromRequest`: id and username are ignored; a null password
      keeps the stored hash and any other is encoded; display name and
      email are overwritten only by non-null values. */
  function UpdateFromRequest(r: UpdateUserRequest, u: UserEntity, encode: Encoder): (v: UserEntity)
    ensures v.id == u.id && v.username == u.username
    ensures r.password.None? ==> v.password == u.password
    ensures r.password.Some? ==> v.password == Some(encode(r.password.value))
    ensures r.displayName.Some? ==> v.displayName == r.displayName
    ensures r.displayName.None? ==> v.displayName == u.displayName
    ensures r.email.Some? ==> v.email == r.email
    ensures r.email.None? ==> v.email == u.email
  {
    var password := if r.password.None? then u.password else Some(encode(r.password.value));
    u.(password := password,
       displayName := if r.displayName.Some? then r.displayName else u.displayName,
       email := if r.email.Some? then r.email else u.email)
  }

  /** `toResponse`: id, username, display name and email; no password. */
  function ToResponse(u: UserEntity): (r: UserResponse)
    ensures r.id == u.id && r.username == u.username
    ensures r.displayName == u.displayName && r.email == u.email
  {
    UserResponse(u.id, u.username, u.displayName, u.email)
  }

  /** The display name is the username exactly when the request's is
      null or blank (or already equal to it). */
  lemma DisplayNameDefaulting(r: CreateUserRequest, encode: Encoder)
    requires r.password.Some?
    ensures var u := CreateFromRequest(r, encode).value;
            (r.displayName.None? || IsBlank(r.displayName.value)) ==> u.displayName == r.username
    ensures var u := CreateFromRequest(r, encode).value;
            (r.displayName.Some? && !IsBlank(r.displayName.value)) ==> u.displayName == r.displayName
  {
  }

  /** A whitespace-only password is encoded like any other. */
  lemma BlankPasswordIsEncoded(r: CreateUserRequest, encode: Encoder)
    requires r.password == Some("    ")
    ensures CreateFromRequest(r, encode) == Ok(CreateFromRequest(r, encode).value)
    ensures CreateFromRequest(r, encode).value.password == Some(encode("    "))
  {
  }

  /** An empty password is not absence: it is encoded and replaces the hash;
      empty display names and emails overwrite too. */
  lemma EmptyValuesOverwrite(u: UserEntity, encode: Encoder)
    ensures var v := UpdateFromRequest(UpdateUserRequest(Some(""), None, Some(""), Some("")), u, encode);
            v.password == Some(encode("")) && v.displayName == Some("") && v.email == Some("")
  {
  }

  /** An update with nothing set leaves the user as it was. */
  lemma UpdateWithNothingIsIdentity(u: UserEntity, encode: Encoder, confirm: Option<string>)
    ensures UpdateFromRequest(UpdateUserRequest(None, confirm, None, None), u, encode) == u
  {
  }

  /** Applying the same update twice is applying it once: the new hash
      depends only on the request. */
  lemma UpdateIdempotent(r: UpdateUserRequest, u: UserEntity, encode: Encoder)
    ensures UpdateFromRequest(r, UpdateFromRequest(r, u, encode), encode) == UpdateFromRequest(r, u, encode)
  {
  }

  /** The response does not depend on the stored password. */
  lemma ResponseHidesPassword(u: UserEntity, hash: Option<string>)
    ensures ToResponse(u.(password := hash)) == ToResponse(u)
  {
  }
}
