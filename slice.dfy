/**
 * `frontend/src/reducers/userReducer.js`: the `user` slice. `Reduce` is
 * the slice reducer as a function of the state and the action; the class
 * `UserStore` applies the same cases by assigning fields one by one, as
 * the case reducers do on their draft. The thunks' network calls are
 * replaced by their replies; what remains is how a reply becomes a
 * fulfilled or rejected action.
 */
module UserSlice {
  import opened Lang
  import opened Js
  import opened Utils

  datatype UserState = UserState(
    userRequest: bool,
    expenses: seq<Item>,
    incomes: seq<Item>,
    userError: Option<string>,
    isAuthenticated: bool,
    isAuthChecked: bool,
    isLoading: bool)

  const InitialState: UserState := UserState(false, [], [], None, false, false, false)

  /** The `resetAuthState` reducer and the extra reducers' cases. A created
      item comes with the form's date in milliseconds (`None` when the form
      date does not parse). */
  datatype Action =
    | ResetAuthState
    | LoginPending | LoginFulfilled | LoginRejected(message: Option<string>)
    | LogoutPending | LogoutFulfilled | LogoutRejected(message: Option<string>)
    | SignUpPending | SignUpFulfilled | SignUpRejected(message: Option<string>)
    | FetchExpensesPending | FetchExpensesFulfilled(payload: seq<Item>) | FetchExpensesRejected(message: Option<string>)
    | FetchIncomesPending | FetchIncomesFulfilled(payload: seq<Item>) | FetchIncomesRejected(message: Option<string>)
    | CreateExpensePending | CreateExpenseFulfilled(created: Item, formMillis: Option<int>) | CreateExpenseRejected(message: Option<string>)
    | CreateIncomePending | CreateIncomeFulfilled(created: Item, formMillis: Option<int>) | CreateIncomeRejected(message: Option<string>)

  const Unauthorized: string := "Unauthorized"

  /** `Math.floor(new Date(formDate).getTime() / 1000)`: seconds, rounded
      down (Dafny's division by a positive divisor rounds down too); an
      unparsable date gives `NaN`. */
  function FormSeconds(formMillis: Option<int>): (v: JsValue)
    ensures formMillis.None? ==> v == NaN
    ensures formMillis.Some? ==> v.Num? && v.n * 1000 <= formMillis.value < v.n * 1000 + 1000
  {
    match formMillis
    case None => NaN
    case Some(ms) => Num(ms / 1000)
  }

  /** `{ ...payload, createDate: timestampFromForm }`. */
  function WithFormDate(created: Item, formMillis: Option<int>): Item {
    created.(createDate := FormSeconds(formMillis))
  }

  function Reduce(s: UserState, a: Action): UserState {
    match a
    case ResetAuthState =>
      s.(isAuthenticated := false, isAuthChecked := true, expenses := [], incomes := [], userError := None)
    case LoginPending =>
      s.(userRequest := true, userError := None, isLoading := true)
    case LoginFulfilled =>
      s.(isAuthenticated := true, userRequest := false, userError := None, isAuthChecked := true, isLoading := false)
    case LoginRejected(m) =>
      s.(isAuthenticated := false, userRequest := false, userError := Some(MessageOr(m, "Authorization failed.")), isLoading := false)
    case LogoutPending =>
      s.(userRequest := true, userError := None)
    case LogoutFulfilled =>
      s.(isAuthenticated := false, userRequest := false, userError := None, isAuthChecked := true, expenses := [])
    case LogoutRejected(m) =>
      s.(isAuthenticated := false, userRequest := false, userError := Some(MessageOr(m, "Logout failed.")))
    case SignUpPending =>
      s.(userRequest := true, userError := None, isLoading := true)
    case SignUpFulfilled =>
      s.(isAuthenticated := true, userRequest := false, userError := None, isAuthChecked := true, isLoading := false)
    case SignUpRejected(m) =>
      s.(isAuthenticated := false, userRequest := false, userError := Some(MessageOr(m, "Registration failed.")), isLoading := false)
    case FetchExpensesPending =>
      s.(isLoading := true, userError := None)
    case FetchExpensesFulfilled(p) =>
      s.(isLoading := false, expenses := p, userError := None)
    case FetchExpensesRejected(m) =>
      var t := s.(isLoading := false, userError := Some(MessageOr(m, "Failed to fetch expenses")));
      if m == Some(Unauthorized) then t.(isAuthenticated := false, expenses := []) else t
    case FetchIncomesPending =>
      s.(isLoading := true, userError := None)
    case FetchIncomesFulfilled(p) =>
      s.(isLoading := false, incomes := p, userError := None)
    case FetchIncomesRejected(m) =>
      var t := s.(isLoading := false, userError := Some(MessageOr(m, "Failed to fetch incomes")));
      if m == Some(Unauthorized) then t.(isAuthenticated := false, incomes := []) else t
    case CreateExpensePending =>
      s.(userError := None, isLoading := true)
    case CreateExpenseFulfilled(x, ms) =>
      s.(expenses := s.expenses + [WithFormDate(x, ms)], userError := None, isLoading := false)
    case CreateExpenseRejected(m) =>
      s.(userError := Some(MessageOr(m, "Failed to create expense")))
    case CreateIncomePending =>
      s.(userError := None, isLoading := true)
    case CreateIncomeFulfilled(x, ms) =>
      s.(incomes := s.incomes + [WithFormDate(x, ms)], userError := None, isLoading := false)
    case CreateIncomeRejected(m) =>
      s.(userError := Some(MessageOr(m, "Failed to create income")))
  }

  /** The `resetAuthState` reducer and the login, logout and sign-up cases. */
  predicate SessionAction(a: Action) {
    a.ResetAuthState?
    || a.LoginPending?
    || a.LoginFulfilled?
    || a.LoginRejected?
    || a.LogoutPending?
    || a.LogoutFulfilled?
    || a.LogoutRejected?
    || a.SignUpPending?
    || a.SignUpFulfilled?
    || a.SignUpRejected?
  }

  /** The cases of the two fetch thunks. */
  predicate FetchAction(a: Action) {
    a.FetchExpensesPending?
    || a.FetchExpensesFulfilled?
    || a.FetchExpensesRejected?
    || a.FetchIncomesPending?
    || a.FetchIncomesFulfilled?
    || a.FetchIncomesRejected?
  }

  /** The slice's state, held in fields the case reducers assign. */
  class UserStore {
    var userRequest: bool
    var expenses: seq<Item>
    var incomes: seq<Item>
    var userError: Option<string>
    var isAuthenticated: bool
    var isAuthChecked: bool
    var isLoading: bool

    function Snapshot(): UserState
      reads this
    {
      UserState(userRequest, expenses, incomes, userError, isAuthenticated, isAuthChecked, isLoading)
    }

    constructor ()
      ensures Snapshot() == InitialState
    {
      userRequest := false;
      expenses := [];
      incomes := [];
      userError := None;
      isAuthenticated := false;
      isAuthChecked := false;
      isLoading := false;
    }

    method Dispatch(a: Action)
      modifies this
      ensures Snapshot() == Reduce(old(Snapshot()), a)
    {
      if SessionAction(a) {
        ApplySession(a);
      } else if FetchAction(a) {
        ApplyFetch(a);
      } else {
        ApplyCreate(a);
      }
    }

    method ApplySession(a: Action)
      requires SessionAction(a)
      modifies this
      ensures Snapshot() == Reduce(old(Snapshot()), a)
    {
      match a {
        case ResetAuthState =>
          isAuthenticated := false;
          isAuthChecked := true;
          expenses := [];
          incomes := [];
          userError := None;
        case LoginPending =>
          userRequest := true;
          userError := None;
          isLoading := true;
        case LoginFulfilled =>
          isAuthenticated := true;
          userRequest := false;
          userError := None;
          isAuthChecked := true;
          isLoading := false;
        case LoginRejected(m) =>
          isAuthenticated := false;
          userRequest := false;
          userError := Some(MessageOr(m, "Authorization failed."));
          isLoading := false;
        case LogoutPending =>
          userRequest := true;
          userError := None;
        case LogoutFulfilled =>
          isAuthenticated := false;
          userRequest := false;
          userError := None;
          isAuthChecked := true;
          expenses := [];
        case LogoutRejected(m) =>
          isAuthenticated := false;
          userRequest := false;
          userError := Some(MessageOr(m, "Logout failed."));
        case SignUpPending =>
          userRequest := true;
          userError := None;
          isLoading := true;
        case SignUpFulfilled =>
          isAuthenticated := true;
          userRequest := false;
          userError := None;
          isAuthChecked := true;
          isLoading := false;
        case SignUpRejected(m) =>
          isAuthenticated := false;
          userRequest := false;
          userError := Some(MessageOr(m, "Registration failed."));
          isLoading := false;
        case _ =>
          assert false;
      }
    }

    method ApplyFetch(a: Action)
      requires FetchAction(a)
      modifies this
      ensures Snapshot() == Reduce(old(Snapshot()), a)
    {
      match a {
        case FetchExpensesPending =>
          isLoading := true;
          userError := None;
        case FetchExpensesFulfilled(p) =>
          isLoading := false;
          expenses := p;
          userError := None;
        case FetchExpensesRejected(m) =>
          isLoading := false;
          userError := Some(MessageOr(m, "Failed to fetch expenses"));
          if m == Some(Unauthorized) {
            isAuthenticated := false;
            expenses := [];
          }
        case FetchIncomesPending =>
          isLoading := true;
          userError := None;
        case FetchIncomesFulfilled(p) =>
          isLoading := false;
          incomes := p;
          userError := None;
        case FetchIncomesRejected(m) =>
          isLoading := false;
          userError := Some(MessageOr(m, "Failed to fetch incomes"));
          if m == Some(Unauthorized) {
            isAuthenticated := false;
            incomes := [];
          }
        case _ =>
          assert false;
      }
    }

    method ApplyCreate(a: Action)
      requires !SessionAction(a) && !FetchAction(a)
      modifies this
      ensures Snapshot() == Reduce(old(Snapshot()), a)
    {
      match a {
        case CreateExpensePending =>
          userError := None;
          isLoading := true;
        case CreateExpenseFulfilled(x, ms) =>
          var withDate := x.(createDate := FormSeconds(ms));
          expenses := expenses + [withDate];
          userError := None;
          isLoading := false;
        case CreateExpenseRejected(m) =>
          userError := Some(MessageOr(m, "Failed to create expense"));
        case CreateIncomePending =>
          userError := None;
          isLoading := true;
        case CreateIncomeFulfilled(x, ms) =>
          var withDate := x.(createDate := FormSeconds(ms));
          incomes := incomes + [withDate];
          userError := None;
          isLoading := false;
        case CreateIncomeRejected(m) =>
          userError := Some(MessageOr(m, "Failed to create income"));
        case _ =>
          assert false;
      }
    }
  }

  // ---- The thunks' decisions ----

  /** A thunk's settlement: its payload, or the message of the error it threw. */
  datatype Settled<T> = Fulfilled(payload: T) | Rejected(message: Option<string>)

  /** A fetch reply: its status and, when it is OK, its JSON body. */
  datatype Reply = Reply(status: int, body: seq<Item>)

  /** `response.ok`. */
  predicate Ok(status: int) {
    200 <= status <= 299
  }

  /** `fetchExpenses` / `fetchIncomes`: an aborted request, then an OK
      reply, then 401, then any other status. */
  function FetchThunk(noun: string, aborted: bool, reply: Reply): (r: Settled<seq<Item>>)
    ensures r.Rejected? ==> r.message.Some? && r.message.value != []
    ensures r == Rejected(Some(Unauthorized)) <==> !aborted && reply.status == 401
    ensures r.Fulfilled? <==> !aborted && Ok(reply.status)
    ensures r.Fulfilled? ==> r.payload == reply.body
  {
    if aborted then Rejected(Some("Request aborted"))
    else if Ok(reply.status) then Fulfilled(reply.body)
    else if reply.status == 401 then Rejected(Some(Unauthorized))
    else Rejected(Some("Failed to get " + noun + ": " + IntToString(reply.status)))
  }

  function ExpensesAction(r: Settled<seq<Item>>): Action {
    match r
    case Fulfilled(p) => FetchExpensesFulfilled(p)
    case Rejected(m) => FetchExpensesRejected(m)
  }

  /** Only a 401 reply to a request that was not aborted signs the user out
      and clears the expenses; any other failure keeps both, and an OK
      reply stores the body. Incomes are never touched. */
  lemma FetchExpensesSignsOutOnlyOn401(s: UserState, aborted: bool, reply: Reply)
    ensures var t := Reduce(s, ExpensesAction(FetchThunk("expenses", aborted, reply)));
            && (t.isAuthenticated <==> s.isAuthenticated && (aborted || reply.status != 401))
            && (!aborted && reply.status == 401 ==> t.expenses == [])
            && (!aborted && Ok(reply.status) ==> t.expenses == reply.body)
            && (aborted || (!Ok(reply.status) && reply.status != 401) ==> t.expenses == s.expenses)
            && t.incomes == s.incomes && !t.isLoading
  {
    if !aborted && !Ok(reply.status) && reply.status != 401 {
      var m := "Failed to get expenses: " + IntToString(reply.status);
      assert m != Unauthorized by {
        assert m[0] == 'F' && Unauthorized[0] == 'U';
      }
    }
  }

  /** `userLogin` / `userLogout`: status 200 or a fixed message. */
  function StatusThunk(status: int, failure: string): (r: Settled<()>)
    ensures r.Fulfilled? <==> status == 200
    ensures r.Rejected? ==> r.message == Some(failure)
  {
    if status == 200 then Fulfilled(()) else Rejected(Some(failure))
  }

  /** `userSignUp`: a failed reply throws `new Error(headers.get('error'))`;
      a missing header is `null`, whose text is "null". */
  function SignUpThunk(status: int, errorHeader: Option<string>): (r: Settled<()>)
    ensures r.Fulfilled? <==> status == 200
    ensures r.Rejected? ==> r.message == Some(ErrorText(if errorHeader.Some? then Str(errorHeader.value) else Null))
  {
    if status == 200 then Fulfilled(())
    else Rejected(Some(ErrorText(if errorHeader.Some? then Str(errorHeader.value) else Null)))
  }

  function SignUpAction(r: Settled<()>): Action {
    match r
    case Fulfilled(_) => SignUpFulfilled
    case Rejected(m) => SignUpRejected(m)
  }

  /** As written: a failed sign-up without an error header shows "null",
      not the fallback 'Registration failed.'. */
  lemma SignUpWithoutHeaderShowsNull(s: UserState, status: int)
    requires status != 200
    ensures Reduce(s, SignUpAction(SignUpThunk(status, None))).userError == Some("null")
  {
  }

  /** The evidently intended thunk: without a header the error has no
      message, so the reducer's fallback applies. */
  function SignUpThunkIntended(status: int, errorHeader: Option<string>): (r: Settled<()>)
    ensures r.Fulfilled? <==> status == 200
    ensures r.Rejected? ==> r.message == errorHeader
  {
    if status == 200 then Fulfilled(()) else Rejected(errorHeader)
  }

  /** With the intended thunk, a failed sign-up shows the server's header
      when it has one, and 'Registration failed.' otherwise. */
  lemma SignUpIntendedShowsHeaderOrFallback(s: UserState, status: int, errorHeader: Option<string>)
    requires status != 200
    ensures var t := Reduce(s, SignUpAction(SignUpThunkIntended(status, errorHeader)));
            && (errorHeader.Some? && errorHeader.value != [] ==> t.userError == errorHeader)
            && (errorHeader.None? ==> t.userError == Some("Registration failed."))
            && !t.isAuthenticated && !t.isLoading
  {
  }

  /** `fetchCreateExpense` / `fetchCreateIncome`: the reply's text, or the
      fixed message when the text is empty. */
  function CreateThunk(failure: string, ok: bool, created: Item, text: string): (r: Settled<Item>)
    ensures r.Fulfilled? <==> ok
    ensures r.Fulfilled? ==> r.payload == created
    ensures r.Rejected? ==> r.message == Some(if text != [] then text else failure)
  {
    if ok then Fulfilled(created) else Rejected(Some(MessageOr(Some(text), failure)))
  }

  // ---- Properties of the reducer ----

  lemma InitialStateIsSignedOut()
    ensures InitialState.expenses == [] && InitialState.incomes == []
    ensures !InitialState.isAuthenticated && !InitialState.isAuthChecked && !InitialState.isLoading
    ensures InitialState.userError.None? && !InitialState.userRequest
  {
  }

  /** `resetAuthState` signs out, marks the check done, and empties both
      lists and the error; the request and loading flags stay. */
  lemma ResetAuthStateClears(s: UserState)
    ensures Reduce(s, ResetAuthState)
         == UserState(s.userRequest, [], [], None, false, true, s.isLoading)
  {
  }

  lemma LoginFulfilledSignsIn(s: UserState)
    ensures var t := Reduce(s, LoginFulfilled);
            t.isAuthenticated && t.isAuthChecked && !t.userRequest && !t.isLoading && t.userError.None?
            && t.expenses == s.expenses && t.incomes == s.incomes
  {
  }

  /** Logging out empties the expenses but leaves the incomes in place. */
  lemma LogoutKeepsIncomes(s: UserState)
    ensures Reduce(s, LogoutFulfilled).expenses == []
    ensures Reduce(s, LogoutFulfilled).incomes == s.incomes
    ensures !Reduce(s, LogoutFulfilled).isAuthenticated
  {
  }

  /** A created expense is appended once, at the end, with the form's date
      in seconds; the earlier expenses and all incomes are unchanged. */
  lemma CreateExpenseAppendsOne(s: UserState, x: Item, ms: int)
    ensures var t := Reduce(s, CreateExpenseFulfilled(x, Some(ms)));
            && |t.expenses| == |s.expenses| + 1
            && t.expenses[..|s.expenses|] == s.expenses
            && t.expenses[|s.expenses|] == x.(createDate := Num(ms / 1000))
            && t.incomes == s.incomes
  {
    var t := Reduce(s, CreateExpenseFulfilled(x, Some(ms)));
    assert t.expenses[..|s.expenses|] == s.expenses;
  }

  /** Every rejection leaves a non-empty error message. */
  lemma RejectionsSetAnError(s: UserState, a: Action)
    requires a.LoginRejected? || a.LogoutRejected? || a.SignUpRejected? || a.FetchExpensesRejected?
          || a.FetchIncomesRejected? || a.CreateExpenseRejected? || a.CreateIncomeRejected?
    ensures Reduce(s, a).userError.Some? && Reduce(s, a).userError.value != []
  {
  }

  // ---- The loading flag after a failed creation ----

  /** An action that settles a request whose pending case raised `isLoading`. */
  predicate SettlesLoading(a: Action) {
    || a.LoginFulfilled? || a.LoginRejected? || a.SignUpFulfilled? || a.SignUpRejected?
    || a.FetchExpensesFulfilled? || a.FetchExpensesRejected?
    || a.FetchIncomesFulfilled? || a.FetchIncomesRejected?
    || a.CreateExpenseFulfilled? || a.CreateExpenseRejected?
    || a.CreateIncomeFulfilled? || a.CreateIncomeRejected?
  }

  /** As written: a failed creation leaves the loading flag raised by its
      pending case, so the state stays "loading" after the request ended. */
  lemma FailedCreateStaysLoading(s: UserState, m: Option<string>)
    ensures Reduce(Reduce(s, CreateExpensePending), CreateExpenseRejected(m)).isLoading
    ensures Reduce(Reduce(s, CreateIncomePending), CreateIncomeRejected(m)).isLoading
  {
  }

  /** The evidently intended reducer: the two creation rejections also
      lower `isLoading`, like every other rejection. */
  function ReduceFixed(s: UserState, a: Action): (t: UserState)
    ensures a.CreateExpenseRejected? || a.CreateIncomeRejected? ==> t == Reduce(s, a).(isLoading := false)
    ensures !a.CreateExpenseRejected? && !a.CreateIncomeRejected? ==> t == Reduce(s, a)
  {
    match a
    case CreateExpenseRejected(m) => s.(userError := Some(MessageOr(m, "Failed to create expense")), isLoading := false)
    case CreateIncomeRejected(m) => s.(userError := Some(MessageOr(m, "Failed to create income")), isLoading := false)
    case _ => Reduce(s, a)
  }

  /** With the fix, every settling action ends loading, and nothing else
      changes. */
  lemma SettledRequestsStopLoading(s: UserState, a: Action)
    requires SettlesLoading(a)
    ensures !ReduceFixed(s, a).isLoading
    ensures ReduceFixed(s, a).(isLoading := Reduce(s, a).isLoading) == Reduce(s, a)
  {
  }
}
