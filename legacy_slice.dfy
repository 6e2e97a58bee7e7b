/**
 * `src/reducers/userReducer.js`: the earlier `user` slice. It has a
 * `setUser` reducer instead of `resetAuthState`, no creation thunks, and
 * its fetch thunks filter the reply by `user_id` on the client.
 */
module LegacyUserSlice {
  import opened Lang
  import opened Js
  import opened Utils

  /** `name` is absent until `setUser` writes it. */
  datatype LegacyState = LegacyState(
    userRequest: bool,
    expenses: seq<Item>,
    incomes: seq<Item>,
    userError: Option<string>,
    isAuthenticated: bool,
    isAuthChecked: bool,
    isLoading: bool,
    name: JsValue)

  const InitialState: LegacyState := LegacyState(false, [], [], None, false, false, false, Undefined)

  datatype UserPayload = UserPayload(expenses: seq<Item>, incomes: seq<Item>, name: JsValue)

  datatype Action =
    | SetUser(user: UserPayload)
    | LoginPending | LoginFulfilled | LoginRejected(message: Option<string>)
    | LogoutPending | LogoutFulfilled | LogoutRejected(message: Option<string>)
    | SignUpPending | SignUpFulfilled | SignUpRejected(message: Option<string>)
    | FetchExpensesPending | FetchExpensesFulfilled(payload: seq<Item>) | FetchExpensesRejected(message: Option<string>)
    | FetchIncomesPending | FetchIncomesFulfilled(payload: seq<Item>) | FetchIncomesRejected(message: Option<string>)

  function Reduce(s: LegacyState, a: Action): LegacyState {
    match a
    case SetUser(p) =>
      s.(isAuthenticated := true, expenses := p.expenses, incomes := p.incomes, name := p.name)
    case LoginPending =>
      s.(userRequest := true, userError := None, isLoading := true)
    case LoginFulfilled =>
      s.(isAuthenticated := true, userRequest := false, userError := None, isAuthChecked := true, isLoading := false)
    case LoginRejected(m) =>
      s.(isAuthenticated := false, userRequest := false, userError := Some(MessageOr(m, "Authorization failed.")), isLoading := false)
    case LogoutPending =>
      s.(userRequest := true, userError := None)
    case LogoutFulfilled =>
      s.(isAuthenticated := false, userRequest := false, userError := None, isAuthChecked := true, expenses := [])
    case LogoutRejected(m) =>
      s.(isAuthenticated := false, userRequest := false, userError := Some(MessageOr(m, "Logout failed.")))
    case SignUpPending =>
      s.(userRequest := true, userError := None, isLoading := true)
    case SignUpFulfilled =>
      s.(isAuthenticated := true, userRequest := false, userError := None, isAuthChecked := true, isLoading := false)
    case SignUpRejected(m) =>
      s.(isAuthenticated := false, userRequest := false, userError := Some(MessageOr(m, "Registration failed.")), isLoading := false)
    case FetchExpensesPending =>
      s.(isLoading := true, userError := None)
    case FetchExpensesFulfilled(p) =>
      s.(isLoading := false, expenses := p, userError := None)
    case FetchExpensesRejected(m) =>
      s.(isLoading := false, userError := Some(MessageOr(m, "Failed to fetch expenses")))
    case FetchIncomesPending =>
      s.(isLoading := true, userError := None)
    case FetchIncomesFulfilled(p) =>
      s.(isLoading := false, incomes := p, userError := None)
    case FetchIncomesRejected(m) =>
      s.(isLoading := false, userError := Some(MessageOr(m, "Failed to fetch incomes")))
  }

  /** The `setUser` reducer and the login, logout and sign-up cases. */
  predicate SessionAction(a: Action) {
    a.SetUser?
    || a.LoginPending?
    || a.LoginFulfilled?
    || a.LoginRejected?
    || a.LogoutPending?
    || a.LogoutFulfilled?
    || a.LogoutRejected?
    || a.SignUpPending?
    || a.SignUpFulfilled?
    || a.SignUpRejected?
  }

  /** The slice's state, held in fields the case reducers assign. */
  class LegacyStore {
    var userRequest: bool
    var expenses: seq<Item>
    var incomes: seq<Item>
    var userError: Option<string>
    var isAuthenticated: bool
    var isAuthChecked: bool
    var isLoading: bool
    var name: JsValue

    function Snapshot(): LegacyState
      reads this
    {
      LegacyState(userRequest, expenses, incomes, userError, isAuthenticated, isAuthChecked, isLoading, name)
    }

    constructor ()
      ensures Snapshot() == InitialState
    {
      userRequest := false;
      expenses := [];
      incomes := [];
      userError := None;
      isAuthenticated := false;
      isAuthChecked := false;
      isLoading := false;
      name := Undefined;
    }

    method Dispatch(a: Action)
      modifies this
      ensures Snapshot() == Reduce(old(Snapshot()), a)
    {
      if SessionAction(a) {
        ApplySession(a);
      } else {
        ApplyFetch(a);
      }
    }

    method ApplySession(a: Action)
      requires SessionAction(a)
      modifies this
      ensures Snapshot() == Reduce(old(Snapshot()), a)
    {
      match a {
        case SetUser(p) =>
          isAuthenticated := true;
          expenses := p.expenses;
          incomes := p.incomes;
          name := p.name;
        case LoginPending =>
          userRequest := true;
          userError := None;
          isLoading := true;
        case LoginFulfilled =>
          isAuthenticated := true;
          userRequest := false;
          userError := None;
          isAuthChecked := true;
          isLoading := false;
        case LoginRejected(m) =>
          isAuthenticated := false;
          userRequest := false;
          userError := Some(MessageOr(m, "Authorization failed."));
          isLoading := false;
        case LogoutPending =>
          userRequest := true;
          userError := None;
        case LogoutFulfilled =>
          isAuthenticated := false;
          userRequest := false;
          userError := None;
          isAuthChecked := true;
          expenses := [];
        case LogoutRejected(m) =>
          isAuthenticated := false;
          userRequest := false;
          userError := Some(MessageOr(m, "Logout failed."));
        case SignUpPending =>
          userRequest := true;
          userError := None;
          isLoading := true;
        case SignUpFulfilled =>
          isAuthenticated := true;
          userRequest := false;
          userError := None;
          isAuthChecked := true;
          isLoading := false;
        case SignUpRejected(m) =>
          isAuthenticated := false;
          userRequest := false;
          userError := Some(MessageOr(m, "Registration failed."));
          isLoading := false;
        case _ =>
          assert false;
      }
    }

    method ApplyFetch(a: Action)
      requires !SessionAction(a)
      modifies this
      ensures Snapshot() == Reduce(old(Snapshot()), a)
    {
      match a {
        case FetchExpensesPending =>
          isLoading := true;
          userError := None;
        case FetchExpensesFulfilled(p) =>
          isLoading := false;
          expenses := p;
          userError := None;
        case FetchExpensesRejected(m) =>
          isLoading := false;
          userError := Some(MessageOr(m, "Failed to fetch expenses"));
        case FetchIncomesPending =>
          isLoading := true;
          userError := None;
        case FetchIncomesFulfilled(p) =>
          isLoading := false;
          incomes := p;
          userError := None;
        case FetchIncomesRejected(m) =>
          isLoading := false;
          userError := Some(MessageOr(m, "Failed to fetch incomes"));
        case _ =>
          assert false;
      }
    }
  }

  // ---- The fetch thunks ----

  datatype Settled<T> = Fulfilled(payload: T) | Rejected(message: Option<string>)

  /** `userId ? data.filter(x => x.user_id === userId) : data`. */
  function ByUser(data: seq<Item>, userId: JsValue): (r: seq<Item>)
    ensures !Truthy(userId) ==> r == data
    ensures Truthy(userId) ==>
              && IsSubsequence(r, data)
              && (forall x :: x in r <==> x in data && StrictEquals(x.userId, userId))
              && (forall i :: 0 <= i < |r| ==> r[i].userId == userId)
              && (forall x :: multiset(r)[x] == if StrictEquals(x.userId, userId) then multiset(data)[x] else 0)
  {
    if Truthy(userId) then Filter(data, (x: Item) => StrictEquals(x.userId, userId)) else data
  }

  /** `fetchExpenses(userId)` / `fetchIncomes(userId)`: an aborted request,
      then status 200 with the filtered body, else a fixed message that
      does not mention the status. */
  function FetchThunk(noun: string, userId: JsValue, aborted: bool, status: int, body: seq<Item>): (r: Settled<seq<Item>>)
    ensures r.Fulfilled? <==> !aborted && status == 200
    ensures r.Fulfilled? ==> r.payload == ByUser(body, userId)
    ensures !aborted && status != 200 ==> r == Rejected(Some("Failed to get " + noun))
  {
    if aborted then Rejected(Some("Request aborted"))
    else if status == 200 then Fulfilled(ByUser(body, userId))
    else Rejected(Some("Failed to get " + noun))
  }

  function ExpensesAction(r: Settled<seq<Item>>): Action {
    match r
    case Fulfilled(p) => FetchExpensesFulfilled(p)
    case Rejected(m) => FetchExpensesRejected(m)
  }

  // ---- Properties ----

  /** `setUser` signs in and takes lists and name from the payload; the
      request, loading and error fields are kept. */
  lemma SetUserTakesPayload(s: LegacyState, p: UserPayload)
    ensures Reduce(s, SetUser(p))
         == LegacyState(s.userRequest, p.expenses, p.incomes, s.userError, true, s.isAuthChecked, s.isLoading, p.name)
  {
  }

  /** A user id of 0, "", null or undefined is falsy: nothing is filtered. */
  lemma FalsyUserIdKeepsAll(data: seq<Item>)
    ensures ByUser(data, Null) == data && ByUser(data, Undefined) == data
    ensures ByUser(data, Num(0)) == data && ByUser(data, Str("")) == data
  {
  }

  /** A stored fetch result holds exactly the caller's items, in the
      reply's order. */
  lemma FetchedExpensesAreTheCallers(s: LegacyState, userId: int, body: seq<Item>)
    requires userId != 0
    ensures var t := Reduce(s, ExpensesAction(FetchThunk("expenses", Num(userId), false, 200, body)));
            && t.expenses == ByUser(body, Num(userId))
            && IsSubsequence(t.expenses, body)
            && (forall x :: multiset(t.expenses)[x] == if x.userId == Num(userId) then multiset(body)[x] else 0)
            && (forall x :: x in t.expenses <==> x in body && x.userId == Num(userId))
  {
    var f := ByUser(body, Num(userId));
    assert ExpensesAction(FetchThunk("expenses", Num(userId), false, 200, body)) == FetchExpensesFulfilled(f);
    assert Reduce(s, FetchExpensesFulfilled(f)).expenses == f;
    assert Truthy(Num(userId));
  }

  /** A failed fetch only lowers the loading flag and sets the error: in
      this slice even a 401 keeps the user signed in and the lists as they
      were, and the message is the same for every status. */
  lemma FailedFetchKeepsSession(s: LegacyState, userId: JsValue, status: int, body: seq<Item>)
    requires status != 200
    ensures Reduce(s, ExpensesAction(FetchThunk("expenses", userId, false, status, body)))
         == s.(isLoading := false, userError := Some("Failed to get expenses"))
  {
    assert "Failed to get " + "expenses" == "Failed to get expenses";
  }

  /** The message and the signed-in flag of a rejected fetch do not depend
      on the reply's status, unlike the later slice's 401 handling. */
  lemma StatusIsIgnored(s: LegacyState, userId: JsValue, st1: int, st2: int, body: seq<Item>)
    requires st1 != 200 && st2 != 200
    ensures Reduce(s, ExpensesAction(FetchThunk("expenses", userId, false, st1, body)))
         == Reduce(s, ExpensesAction(FetchThunk("expenses", userId, false, st2, body)))
  {
  }

  lemma LoginRejectedDefaultsMessage(s: LegacyState)
    ensures Reduce(s, LoginRejected(None)).userError == Some("Authorization failed.")
    ensures Reduce(s, LoginRejected(Some(""))).userError == Some("Authorization failed.")
    ensures !Reduce(s, LoginRejected(None)).isAuthenticated
  {
  }
}
