/**
 * The request records and their Bean Validation constraints. For each
 * record, a predicate states the constraints as the annotations declare
 * them, and a function lists the violations a validator reports. "Now"
 * (for `@PastOrPresent`) is a parameter, and so is the library's `@Email`
 * check, whose rules are not part of this model.
 */
module Requests {
  import opened Lang

  const JavaIntMax: int := 2147483647

  datatype CreateTransactionRequest = CreateTransactionRequest(
    amount: Option<int>, category: Option<string>, createDate: Option<int>, description: Option<string>)

  datatype UpdateTransactionRequest = UpdateTransactionRequest(
    amount: Option<int>, category: Option<string>, createDate: Option<int>, description: Option<string>)

  datatype CreateUserRequest = CreateUserRequest(
    username: Option<string>, password: Option<string>, confirmPassword: Option<string>,
    displayName: Option<string>, email: Option<string>)

  datatype UpdateUserRequest = UpdateUserRequest(
    password: Option<string>, confirmPassword: Option<string>,
    displayName: Option<string>, email: Option<string>)

  /** `rememberMe` is a primitive boolean: it cannot be absent. */
  datatype AuthRequest = AuthRequest(username: Option<string>, password: Option<string>, rememberMe: bool)

  /** The constraint kinds used by the records. `Size` carries the
      annotation's bounds, with Java's defaults 0 and `Integer.MAX_VALUE`. */
  datatype Constraint = NotNull | Positive | PastOrPresent | Size(min: int, max: int) | Email | AssertTrue

  datatype Violation = Violation(field: string, constraint: Constraint)

  /** At most one violation per field: what `Collectors.toMap` needs. */
  predicate FieldsDistinct(v: seq<Violation>) {
    forall i, j :: 0 <= i < j < |v| ==> v[i].field != v[j].field
  }

  predicate FieldsAmong(v: seq<Violation>, fields: set<string>) {
    forall i :: 0 <= i < |v| ==> v[i].field in fields
  }

  /** `@Size(min, max)` on a possibly null string: null is valid. */
  predicate SizeOk(s: Option<string>, min: int, max: int) {
    s.Some? ==> min <= JavaLength(s.value) <= max
  }

  /** `isPasswordMatch()`: true when the password is null; otherwise the
      password must equal the confirmation (a null confirmation never does). */
  predicate IsPasswordMatch(password: Option<string>, confirmPassword: Option<string>) {
    password.Some? ==> confirmPassword == password
  }

  /** At most one violation, and only on `field`. */
  predicate OnField(c: seq<Violation>, field: string) {
    |c| <= 1 && FieldsAmong(c, {field})
  }

  function NotNullCheck<T>(field: string, x: Option<T>): (c: seq<Violation>)
    ensures OnField(c, field) && (c == [] <==> x.Some?)
  {
    if x.None? then [Violation(field, NotNull)] else []
  }

  function SizeCheck(field: string, s: Option<string>, min: int, max: int): (c: seq<Violation>)
    ensures OnField(c, field) && (c == [] <==> SizeOk(s, min, max))
  {
    if SizeOk(s, min, max) then [] else [Violation(field, Size(min, max))]
  }

  /** `@NotNull` and `@Size` on one field: a null reports only `NotNull`. */
  function RequiredSizeCheck(field: string, s: Option<string>, min: int, max: int): (c: seq<Violation>)
    ensures OnField(c, field) && (c == [] <==> s.Some? && SizeOk(s, min, max))
  {
    if s.None? then [Violation(field, NotNull)] else SizeCheck(field, s, min, max)
  }

  function EmailCheck(email: Option<string>, emailOk: string -> bool): (c: seq<Violation>)
    ensures OnField(c, "email") && (c == [] <==> (email.Some? ==> emailOk(email.value)))
  {
    if email.Some? && !emailOk(email.value) then [Violation("email", Email)] else []
  }

  function PasswordMatchCheck(password: Option<string>, confirmPassword: Option<string>): (c: seq<Violation>)
    ensures OnField(c, "passwordMatch") && (c == [] <==> IsPasswordMatch(password, confirmPassword))
  {
    if IsPasswordMatch(password, confirmPassword) then [] else [Violation("passwordMatch", AssertTrue)]
  }

  /** The message a violation carries into the binding result: Hibernate
      Validator's English defaults, and the `@AssertTrue` annotation's own
      message (the only `@AssertTrue` is the password match). */
  function DefaultMessage(c: Constraint): (m: string)
    ensures |m| > 0
  {
    match c
    case NotNull => "must not be null"
    case Positive => "must be greater than 0"
    case PastOrPresent => "must be a date in the past or in the present"
    case Size(min, max) => "size must be between " + IntToString(min) + " and " + IntToString(max)
    case Email => "must be a well-formed email address"
    case AssertTrue => "Passwords don't match"
  }

  /** Joining the reports of disjoint groups of fields keeps one violation
      per field. */
  lemma AppendDistinct(a: seq<Violation>, b: seq<Violation>, fa: set<string>, fb: set<string>)
    requires FieldsDistinct(a) && FieldsAmong(a, fa)
    requires FieldsDistinct(b) && FieldsAmong(b, fb)
    requires fa !! fb
    ensures FieldsDistinct(a + b) && FieldsAmong(a + b, fa + fb)
  {
    forall i, j | 0 <= i < j < |a + b|
      ensures (a + b)[i].field != (a + b)[j].field
    {
      if j >= |a| && i < |a| {
        assert (a + b)[i].field in fa && (a + b)[j].field in fb;
      }
    }
  }

  // ---- CreateTransactionBaseRequestDto ----

  /** amount present and positive; category present (empty allowed, no
      length bound); createDate present and not after now; description
      optional and at most 50 characters. */
  predicate CreateTransactionValid(r: CreateTransactionRequest, now: int) {
    && r.amount.Some? && r.amount.value > 0
    && r.category.Some?
    && r.createDate.Some? && r.createDate.value <= now
    && SizeOk(r.description, 0, 50)
  }

  function CreateTransactionViolations(r: CreateTransactionRequest, now: int): (v: seq<Violation>)
    ensures v == [] <==> CreateTransactionValid(r, now)
    ensures FieldsDistinct(v)
    ensures FieldsAmong(v, {"amount", "category", "createDate", "description"})
  {
    var amount := if r.amount.None? then [Violation("amount", NotNull)]
                  else if r.amount.value <= 0 then [Violation("amount", Positive)] else [];
    var createDate := if r.createDate.None? then [Violation("createDate", NotNull)]
                      else if r.createDate.value > now then [Violation("createDate", PastOrPresent)] else [];
    var c1 := amount + NotNullCheck("category", r.category);
    AppendDistinct(amount, NotNullCheck("category", r.category), {"amount"}, {"category"});
    var c2 := c1 + createDate;
    AppendDistinct(c1, createDate, {"amount", "category"}, {"createDate"});
    AppendDistinct(c2, SizeCheck("description", r.description, 0, 50),
      {"amount", "category", "createDate"}, {"description"});
    c2 + SizeCheck("description", r.description, 0, 50)
  }

  // ---- UpdateTransactionBaseRequestDto ----

  /** Every field may be absent; a present amount is positive, a present
      createDate is not after now, a present description has at most 50
      characters, and category is unconstrained. */
  predicate UpdateTransactionValid(r: UpdateTransactionRequest, now: int) {
    && (r.amount.Some? ==> r.amount.value > 0)
    && (r.createDate.Some? ==> r.createDate.value <= now)
    && SizeOk(r.description, 0, 50)
  }

  function UpdateTransactionViolations(r: UpdateTransactionRequest, now: int): (v: seq<Violation>)
    ensures v == [] <==> UpdateTransactionValid(r, now)
    ensures FieldsDistinct(v)
    ensures FieldsAmong(v, {"amount", "createDate", "description"})
  {
    var amount := if r.amount.Some? && r.amount.value <= 0 then [Violation("amount", Positive)] else [];
    var createDate := if r.createDate.Some? && r.createDate.value > now then [Violation("createDate", PastOrPresent)] else [];
    var description := SizeCheck("description", r.description, 0, 50);
    AppendDistinct(amount, createDate, {"amount"}, {"createDate"});
    AppendDistinct(amount + createDate, description, {"amount", "createDate"}, {"description"});
    amount + createDate + description
  }

  // ---- CreateUserRequestDto ----

  predicate CreateUserValid(r: CreateUserRequest, emailOk: string -> bool) {
    && r.username.Some?
    && r.password.Some? && SizeOk(r.password, 4, JavaIntMax)
    && r.confirmPassword.Some?
    && SizeOk(r.displayName, 0, 128)
    && (r.email.Some? ==> emailOk(r.email.value))
    && IsPasswordMatch(r.password, r.confirmPassword)
  }

  function CreateUserViolations(r: CreateUserRequest, emailOk: string -> bool): (v: seq<Violation>)
    ensures v == [] <==> CreateUserValid(r, emailOk)
    ensures FieldsDistinct(v)
    ensures FieldsAmong(v, {"username", "password", "confirmPassword", "displayName", "email", "passwordMatch"})
  {
    var c1 := NotNullCheck("username", r.username);
    var c2 := RequiredSizeCheck("password", r.password, 4, JavaIntMax);
    var c3 := NotNullCheck("confirmPassword", r.confirmPassword);
    var c4 := SizeCheck("displayName", r.displayName, 0, 128);
    var c5 := EmailCheck(r.email, emailOk);
    var c6 := PasswordMatchCheck(r.password, r.confirmPassword);
    AppendDistinct(c1, c2, {"username"}, {"password"});
    AppendDistinct(c1 + c2, c3, {"username", "password"}, {"confirmPassword"});
    AppendDistinct(c1 + c2 + c3, c4, {"username", "password", "confirmPassword"}, {"displayName"});
    AppendDistinct(c1 + c2 + c3 + c4, c5,
      {"username", "password", "confirmPassword", "displayName"}, {"email"});
    AppendDistinct(c1 + c2 + c3 + c4 + c5, c6,
      {"username", "password", "confirmPassword", "displayName", "email"}, {"passwordMatch"});
    c1 + c2 + c3 + c4 + c5 + c6
  }

  // ---- UpdateUserRequestDto ----

  predicate UpdateUserValid(r: UpdateUserRequest, emailOk: string -> bool) {
    && SizeOk(r.password, 4, JavaIntMax)
    && SizeOk(r.displayName, 0, 128)
    && (r.email.Some? ==> emailOk(r.email.value))
    && IsPasswordMatch(r.password, r.confirmPassword)
  }

  function UpdateUserViolations(r: UpdateUserRequest, emailOk: string -> bool): (v: seq<Violation>)
    ensures v == [] <==> UpdateUserValid(r, emailOk)
    ensures FieldsDistinct(v)
    ensures FieldsAmong(v, {"password", "displayName", "email", "passwordMatch"})
  {
    var c1 := SizeCheck("password", r.password, 4, JavaIntMax);
    var c2 := SizeCheck("displayName", r.displayName, 0, 128);
    var c3 := EmailCheck(r.email, emailOk);
    var c4 := PasswordMatchCheck(r.password, r.confirmPassword);
    AppendDistinct(c1, c2, {"password"}, {"displayName"});
    AppendDistinct(c1 + c2, c3, {"password", "displayName"}, {"email"});
    AppendDistinct(c1 + c2 + c3, c4, {"password", "displayName", "email"}, {"passwordMatch"});
    c1 + c2 + c3 + c4
  }

  // ---- AuthRequestDto ----

  predicate AuthRequestValid(r: AuthRequest) {
    r.username.Some? && r.password.Some? && SizeOk(r.password, 4, JavaIntMax)
  }

  function AuthRequestViolations(r: AuthRequest): (v: seq<Violation>)
    ensures v == [] <==> AuthRequestValid(r)
    ensures FieldsDistinct(v)
    ensures FieldsAmong(v, {"username", "password"})
  {
    var c1 := NotNullCheck("username", r.username);
    var c2 := RequiredSizeCheck("password", r.password, 4, JavaIntMax);
    AppendDistinct(c1, c2, {"username"}, {"password"});
    c1 + c2
  }

  // ---- properties ----

  /** A null password always matches, whatever the confirmation holds. */
  lemma NullPasswordAlwaysMatches(r: UpdateUserRequest, emailOk: string -> bool)
    requires r.password.None? && SizeOk(r.displayName, 0, 128)
    requires r.email.Some? ==> emailOk(r.email.value)
    ensures UpdateUserValid(r, emailOk)
    ensures UpdateUserViolations(r, emailOk) == []
  {
  }

  /** An empty category passes creation. */
  lemma EmptyCategoryAllowed(now: int)
    ensures CreateTransactionValid(CreateTransactionRequest(Some(1), Some(""), Some(now), None), now)
  {
  }

  /** The bound that is enforced is 50, not the 500 the schema text names. */
  lemma DescriptionBoundIsFifty(r: CreateTransactionRequest, now: int, d: string)
    requires r.description == Some(d) && JavaLength(d) == 51
    ensures !CreateTransactionValid(r, now)
    ensures Violation("description", Size(0, 50)) in CreateTransactionViolations(r, now)
  {
  }
}
