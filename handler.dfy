/**
 * `GlobalExceptionHandler`: the translation of an exception that escapes
 * a controller into an HTTP status and a JSON body. Spring picks the
 * handler declared for the most specific superclass; exceptions with no
 * dedicated handler reach the `Exception` handler.
 */
module Handler {
  import opened Lang
  import opened Errors
  import opened Requests
  import Entities
  import Security
  import Transactions
  import Users

  /** `CommonExceptionJson(msg, cause)` and `ValidationExceptionJson(msg, errors)`. */
  datatype Body =
    | Common(msg: string, cause: Option<string>)
    | Validation(msg: string, errors: map<string, string>)

  datatype Response = Response(status: int, body: Body)

  const BadRequest: int := 400
  const Unauthorized: int := 401
  const Forbidden: int := 403
  const NotFound: int := 404
  const MethodNotAllowed: int := 405
  const Conflict: int := 409
  const InternalServerError: int := 500

  /** The text of the `IllegalStateException` `Collectors.toMap` throws on a
      repeated key. */
  function DuplicateKeyMessage(key: string, u: string, v: string): string {
    "Duplicate key " + key + " (attempted merging values " + u + " and " + v + ")"
  }

  predicate AllMessages(fe: seq<FieldError>) {
    forall i :: 0 <= i < |fe| ==> fe[i].defaultMessage.Some?
  }

  predicate DistinctFields(fe: seq<FieldError>) {
    forall i, j :: 0 <= i < j < |fe| ==> fe[i].field != fe[j].field
  }

  function FieldsOf(fe: seq<FieldError>): set<string> {
    set i | 0 <= i < |fe| :: fe[i].field
  }

  /** `Collectors.toMap(getField, getDefaultMessage)`, element by element
      into `acc`: a null message is refused (`requireNonNull`) before the
      key is looked up, and a key already present throws. The result holds
      exactly when every message is present and no field repeats, also
      against `acc`; it then extends `acc` with each field's message. */
  function ToMap(acc: map<string, string>, fe: seq<FieldError>): (r: Result<map<string, string>>)
    ensures r.Ok? <==> AllMessages(fe) && DistinctFields(fe) && FieldsOf(fe) !! acc.Keys
    ensures r.Err? ==> r.failure.NullPointer? || r.failure.IllegalState?
    ensures r.Ok? ==> r.value.Keys == acc.Keys + FieldsOf(fe)
    ensures r.Ok? ==> forall k :: k in acc ==> r.value[k] == acc[k]
    ensures r.Ok? ==> forall i :: 0 <= i < |fe| ==> r.value[fe[i].field] == fe[i].defaultMessage.value
    decreases |fe|
  {
    if fe == [] then Ok(acc)
    else
      var e := fe[0];
      if e.defaultMessage.None? then Err(NullPointer)
      else if e.field in acc then
        Err(IllegalState(DuplicateKeyMessage(e.field, acc[e.field], e.defaultMessage.value)))
      else
        var r := ToMap(acc[e.field := e.defaultMessage.value], fe[1..]);
        SplitFieldErrors(fe);
        if r.Ok? then
          assert forall i :: 0 <= i < |fe| ==> r.value[fe[i].field] == fe[i].defaultMessage.value by {
            forall i | 0 <= i < |fe| ensures r.value[fe[i].field] == fe[i].defaultMessage.value {
              if i > 0 { assert fe[1..][i - 1] == fe[i]; }
            }
          }
          r
        else
          r
  }

  /** The three facts `ToMap` checks, split into the first field error
      and the rest. */
  lemma SplitFieldErrors(fe: seq<FieldError>)
    requires fe != []
    ensures FieldsOf(fe) == {fe[0].field} + FieldsOf(fe[1..])
    ensures AllMessages(fe) <==> fe[0].defaultMessage.Some? && AllMessages(fe[1..])
    ensures DistinctFields(fe) <==> fe[0].field !in FieldsOf(fe[1..]) && DistinctFields(fe[1..])
  {
    forall k | k in FieldsOf(fe) ensures k in {fe[0].field} + FieldsOf(fe[1..]) {
      var i :| 0 <= i < |fe| && fe[i].field == k;
      if i > 0 { assert fe[1..][i - 1].field == k; }
    }
    forall k | k in FieldsOf(fe[1..]) ensures k in FieldsOf(fe) {
      var i :| 0 <= i < |fe[1..]| && fe[1..][i].field == k;
      assert fe[i + 1].field == k;
    }
    assert fe[0].field in FieldsOf(fe);
    if fe[0].defaultMessage.Some? && AllMessages(fe[1..]) {
      forall i | 0 <= i < |fe| ensures fe[i].defaultMessage.Some? {
        if i > 0 { assert fe[1..][i - 1] == fe[i]; }
      }
    }
    if AllMessages(fe) {
      forall i | 0 <= i < |fe[1..]| ensures fe[1..][i].defaultMessage.Some? {
        assert fe[1..][i] == fe[i + 1];
      }
    }
    if fe[0].field !in FieldsOf(fe[1..]) && DistinctFields(fe[1..]) {
      forall i, j | 0 <= i < j < |fe| ensures fe[i].field != fe[j].field {
        assert fe[1..][j - 1] == fe[j];
        if i > 0 { assert fe[1..][i - 1] == fe[i]; }
      }
    }
    if DistinctFields(fe) {
      forall i, j | 0 <= i < j < |fe[1..]| ensures fe[1..][i].field != fe[1..][j].field {
        assert fe[1..][i] == fe[i + 1] && fe[1..][j] == fe[j + 1];
      }
      forall k | 0 <= k < |fe[1..]| ensures fe[1..][k].field != fe[0].field {
        assert fe[1..][k] == fe[k + 1];
      }
    }
  }

  /** The field-to-message map of a failed validation. */
  function ErrorMap(fe: seq<FieldError>): (r: Result<map<string, string>>)
    ensures r.Ok? <==> AllMessages(fe) && DistinctFields(fe)
    ensures r.Ok? ==> r.value.Keys == FieldsOf(fe)
    ensures r.Ok? ==> forall i :: 0 <= i < |fe| ==> r.value[fe[i].field] == fe[i].defaultMessage.value
  {
    ToMap(map[], fe)
  }

  /** `buildResponse(status, msg, e)`: the cause is the exception's message. */
  function Build(status: int, msg: string, f: Failure): (r: Response)
    ensures r.status == status && r.body == Common(msg, f.Message())
  {
    Response(status, Common(msg, f.Message()))
  }

  /** The handlers as declared. Only the validation handler can itself
      throw (while building its map); `Err` is that exception, which then
      leaves the handler untranslated. */
  function Handle(f: Failure): (r: Result<Response>)
    ensures r.Err? <==> f.MethodArgumentNotValid? && ErrorMap(f.fieldErrors).Err?
    ensures r.Ok? && !f.MethodArgumentNotValid? ==> r.value.body.Common? && r.value.body.cause == f.Message()
  {
    match f
    case MethodArgumentNotValid(fe) =>
      (match ErrorMap(fe)
       case Ok(m) => Ok(Response(BadRequest, Validation("Validation failed", m)))
       case Err(g) => Err(g))
    case BadCredentials(_) => Ok(Build(Unauthorized, "Invalid credentials", f))
    case InsufficientAuthentication(_) => Ok(Build(Unauthorized, "Insufficient authentication", f))
    case EntityNotFound(_) => Ok(Build(NotFound, "Element not found", f))
    case DataIntegrityViolation(_) => Ok(Build(Conflict, "Data violation on database", f))
    case UserAlreadyExists(_) => Ok(Build(Conflict, "User already exists", f))
    case UsernameNotFound(_) => Ok(Build(NotFound, "User not found", f))
    case _ => Ok(Build(InternalServerError, "Something went wrong", f))
  }

  /** Which kinds share each status. Every kind not named here, access
      denial and an unsupported method included, is a 500. */
  lemma StatusTable(f: Failure)
    requires Handle(f).Ok?
    ensures var s := Handle(f).value.status;
            && (s == BadRequest <==> f.MethodArgumentNotValid?)
            && (s == Unauthorized <==> f.BadCredentials? || f.InsufficientAuthentication?)
            && (s == NotFound <==> f.EntityNotFound? || f.UsernameNotFound?)
            && (s == Conflict <==> f.DataIntegrityViolation? || f.UserAlreadyExists?)
            && (s == InternalServerError <==>
                  || f.AccessDenied? || f.MethodNotSupported? || f.IllegalArgument?
                  || f.IllegalState? || f.NullPointer? || f.ClassCast? || f.Unexpected?)
            && s in {BadRequest, Unauthorized, NotFound, Conflict, InternalServerError}
  {
  }

  /** The `msg` of each answer: one text per handler, and "Something went
      wrong" exactly for the kinds that reach the `Exception` handler.
      Every answer but the validation one carries the exception's message
      as cause. */
  lemma MessageTable(f: Failure)
    requires Handle(f).Ok?
    ensures var b := Handle(f).value.body;
            && (b.Validation? <==> f.MethodArgumentNotValid?)
            && (b.Common? ==> b.cause == f.Message())
            && (b.msg == "Validation failed" <==> f.MethodArgumentNotValid?)
            && (b.msg == "Invalid credentials" <==> f.BadCredentials?)
            && (b.msg == "Insufficient authentication" <==> f.InsufficientAuthentication?)
            && (b.msg == "Element not found" <==> f.EntityNotFound?)
            && (b.msg == "Data violation on database" <==> f.DataIntegrityViolation?)
            && (b.msg == "User already exists" <==> f.UserAlreadyExists?)
            && (b.msg == "User not found" <==> f.UsernameNotFound?)
            && (b.msg == "Something went wrong" <==>
                  || f.AccessDenied? || f.MethodNotSupported? || f.IllegalArgument?
                  || f.IllegalState? || f.NullPointer? || f.ClassCast? || f.Unexpected?)
  {
  }

  /** The binding result of a validator's report: one field error per
      violation, with the constraint's message. */
  function ToFieldErrors(v: seq<Violation>): (fe: seq<FieldError>)
    ensures |fe| == |v|
    ensures forall i :: 0 <= i < |v| ==> fe[i] == FieldError(v[i].field, Some(DefaultMessage(v[i].constraint)))
  {
    seq(|v|, i requires 0 <= i < |v| => FieldError(v[i].field, Some(DefaultMessage(v[i].constraint))))
  }

  /** A report with one violation per field never breaks the handler: the
      answer is a 400 whose map has one entry per violated field, holding
      that field's message. */
  lemma ReportIsHandled(v: seq<Violation>)
    requires FieldsDistinct(v)
    ensures var r := Handle(MethodArgumentNotValid(ToFieldErrors(v)));
            && r.Ok? && r.value.status == BadRequest && r.value.body.Validation?
            && r.value.body.msg == "Validation failed"
            && (forall k :: k in r.value.body.errors <==> exists i :: 0 <= i < |v| && v[i].field == k)
            && forall i :: 0 <= i < |v| ==> r.value.body.errors[v[i].field] == DefaultMessage(v[i].constraint)
  {
    var fe := ToFieldErrors(v);
    assert AllMessages(fe);
    assert DistinctFields(fe);
    var m := ErrorMap(fe).value;
    assert Handle(MethodArgumentNotValid(fe)) == Ok(Response(BadRequest, Validation("Validation failed", m)));
    forall k ensures k in m <==> exists i :: 0 <= i < |v| && v[i].field == k {
      if k in m {
        var i :| 0 <= i < |fe| && fe[i].field == k;
        assert v[i].field == k;
      }
      if exists i :: 0 <= i < |v| && v[i].field == k {
        var i :| 0 <= i < |v| && v[i].field == k;
        assert fe[i].field == k;
      }
    }
  }

  /** Each request record's validator reports at most one violation per
      field, so an invalid request of any kind is answered 400 with its
      map, never by an exception from the handler. */
  lemma InvalidRequestsAreBadRequests(
    ct: CreateTransactionRequest, ut: UpdateTransactionRequest, cu: CreateUserRequest,
    uu: UpdateUserRequest, ar: AuthRequest, now: int, emailOk: string -> bool)
    ensures Handle(MethodArgumentNotValid(ToFieldErrors(CreateTransactionViolations(ct, now)))).Ok?
    ensures Handle(MethodArgumentNotValid(ToFieldErrors(UpdateTransactionViolations(ut, now)))).Ok?
    ensures Handle(MethodArgumentNotValid(ToFieldErrors(CreateUserViolations(cu, emailOk)))).Ok?
    ensures Handle(MethodArgumentNotValid(ToFieldErrors(UpdateUserViolations(uu, emailOk)))).Ok?
    ensures Handle(MethodArgumentNotValid(ToFieldErrors(AuthRequestViolations(ar)))).Ok?
  {
    ReportIsHandled(CreateTransactionViolations(ct, now));
    ReportIsHandled(UpdateTransactionViolations(ut, now));
    ReportIsHandled(CreateUserViolations(cu, emailOk));
    ReportIsHandled(UpdateUserViolations(uu, emailOk));
    ReportIsHandled(AuthRequestViolations(ar));
  }

  /** The same field reported twice makes `toMap` throw inside the
      handler, so the 400 that Spring's default resolver still sends for
      the validation failure carries no field map. The validators here
      never do this, but the handler does not guard against it. */
  lemma RepeatedFieldBreaksHandler(field: string, m1: string, m2: string)
    ensures Handle(MethodArgumentNotValid([FieldError(field, Some(m1)), FieldError(field, Some(m2))]))
         == Err(IllegalState(DuplicateKeyMessage(field, m1, m2)))
  {
    var fe := [FieldError(field, Some(m1)), FieldError(field, Some(m2))];
    assert fe[1..] == [FieldError(field, Some(m2))];
    assert ToMap(map[field := m1], fe[1..]) == Err(IllegalState(DuplicateKeyMessage(field, m1, m2)));
    assert ErrorMap(fe) == ToMap(map[field := m1], fe[1..]);
  }

  /** A field error without a message makes `toMap` throw as well. */
  lemma MissingMessageBreaksHandler(field: string)
    ensures Handle(MethodArgumentNotValid([FieldError(field, None)])) == Err(NullPointer)
  {
  }

  // ---- The documented statuses for access denial and wrong methods ----

  /** As written, an access denial from an ownership check is answered 500
      "Something went wrong", although the controllers document 403. */
  lemma AccessDeniedIsServerError(row: Entities.Txn, me: Entities.UserEntity, owner: Entities.UserEntity)
    requires row.user == Some(owner) && owner.id.Some? && owner.id != me.id
    ensures Transactions.CheckOwner(row, Ok(Some(me))) == Fail(AccessDenied(Transactions.RecordAccessDenied))
    ensures Handle(AccessDenied(Transactions.RecordAccessDenied))
         == Ok(Response(InternalServerError, Common("Something went wrong", Some(Transactions.RecordAccessDenied))))
  {
    Transactions.ForeignRowIsDenied(row, me, owner);
  }

  /** As written, an unsupported HTTP method is answered 500, not the
      documented 405. */
  lemma MethodNotSupportedIsServerError(m: string)
    ensures Handle(MethodNotSupported(m)).value.status == InternalServerError
  {
  }

  /** The table with the two documented answers added: access denial is
      403 and an unsupported method 405, each with its message as cause.
      The controllers document only the codes (and the message keys
      `error.forbidden` and `error.method.not.allowed`), so the texts
      "Access denied" and "Method not allowed" are placeholders. */
  function HandleIntended(f: Failure): (r: Result<Response>)
    ensures f.AccessDenied? ==> r == Ok(Build(Forbidden, "Access denied", f))
    ensures f.MethodNotSupported? ==> r == Ok(Build(MethodNotAllowed, "Method not allowed", f))
    ensures !f.AccessDenied? && !f.MethodNotSupported? ==> r == Handle(f)
  {
    match f
    case AccessDenied(_) => Ok(Build(Forbidden, "Access denied", f))
    case MethodNotSupported(_) => Ok(Build(MethodNotAllowed, "Method not allowed", f))
    case _ => Handle(f)
  }

  /** The corrected table answers every ownership failure of the services
      with 403: a foreign transaction row, and a foreign user id. */
  lemma OwnershipFailuresAreForbidden(
    row: Entities.Txn, me: Entities.UserEntity, owner: Entities.UserEntity,
    userRows: map<int, Entities.UserEntity>, id: int, auth: Option<Entities.Authentication>)
    requires row.user == Some(owner) && owner.id.Some? && owner.id != me.id
    requires id in userRows
    requires Security.CurrentUserId(auth).Ok? && Security.CurrentUserId(auth).value.Some?
    requires Security.CurrentUserId(auth).value != Some(id)
    ensures var o := Transactions.CheckOwner(row, Ok(Some(me)));
            o.Fail? && HandleIntended(o.failure).Ok? && HandleIntended(o.failure).value.status == Forbidden
    ensures var r := Users.LookupOwned(userRows, Some(id), auth);
            r.Err? && HandleIntended(r.failure).Ok? && HandleIntended(r.failure).value.status == Forbidden
  {
    Transactions.ForeignRowIsDenied(row, me, owner);
    Users.ForeignIdIsDenied(userRows, id, auth);
  }

  /** The corrected table never answers 500 to an access denial, and
      otherwise agrees with the declared one. */
  lemma IntendedRefinesDeclared(f: Failure)
    ensures f.AccessDenied? || f.MethodNotSupported? ==> HandleIntended(f).value.status != InternalServerError
    ensures !f.AccessDenied? && !f.MethodNotSupported? ==> HandleIntended(f) == Handle(f)
  {
  }
}
