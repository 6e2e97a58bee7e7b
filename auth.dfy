/**
 * `AuthServiceImpl.authenticate`: the login sequence. The authentication
 * manager, the security-context repository and the remember-me services
 * are collaborators whose answers are parameters; the calls made to them
 * are recorded in order.
 */
module Auth {
  import opened Lang
  import opened Errors
  import opened Entities
  import opened Requests
  import opened Security

  /** What `authenticationManager.authenticate(token)` does. */
  datatype ManagerAnswer = Returned(authentication: Authentication) | Threw(failure: Failure)

  /** The collaborators' behaviour: the manager's answer to a token, and
      whether `saveContext`, `loginSuccess` and `loginFail` throw. */
  datatype Collaborators = Collaborators(
    manager: Authentication -> ManagerAnswer,
    saveContext: Authentication -> Option<Failure>,
    loginSuccess: Authentication -> Option<Failure>,
    loginFail: Option<Failure>)

  datatype Event =
    | ManagerAuthenticate(token: Authentication)
    | SaveContext(authentication: Authentication)
    | LoginSuccess(authentication: Authentication)
    | LoginFail

  /** `UsernamePasswordAuthenticationToken.unauthenticated(username, password)`. */
  function LoginToken(req: AuthRequest): (t: Authentication)
    ensures t.principal == PrincipalOf(req.username) && t.credentials == req.password
    ensures !t.authenticated && t.authorities == [] && t.details.None?
  {
    Authentication(PrincipalOf(req.username), req.password, [], None, false)
  }

  /** The `catch (Exception e)` block: `loginFail`, then `throw e`. If
      `loginFail` throws, its exception replaces `e`. */
  function Rethrow(c: Collaborators, f: Failure): Failure {
    if c.loginFail.Some? then c.loginFail.value else f
  }

  /** One run of `authenticate`: the calls made, in order, the
      authentication left in the holder (when the run installed one), and
      the outcome. */
  datatype Run = Run(events: seq<Event>, installed: Option<Authentication>, outcome: Outcome)

  function Login(req: AuthRequest, c: Collaborators): (r: Run)
    ensures |r.events| > 0 && r.events[0] == ManagerAuthenticate(LoginToken(req))
    ensures r.outcome.Fail? <==> LoginFail in r.events
  {
    var token := LoginToken(req);
    match c.manager(token)
    case Threw(f) => Run([ManagerAuthenticate(token), LoginFail], None, Fail(Rethrow(c, f)))
    case Returned(a) =>
      if !a.authenticated then Run([ManagerAuthenticate(token)], None, Pass)
      else
        var saved := [ManagerAuthenticate(token), SaveContext(a)];
        match c.saveContext(a)
        case Some(f) => Run(saved + [LoginFail], Some(a), Fail(Rethrow(c, f)))
        case None =>
          if !req.rememberMe then Run(saved, Some(a), Pass)
          else
            match c.loginSuccess(a)
            case Some(f) => Run(saved + [LoginSuccess(a), LoginFail], Some(a), Fail(Rethrow(c, f)))
            case None => Run(saved + [LoginSuccess(a)], Some(a), Pass)
  }

  class AuthService {
    const holder: SecurityContextHolder
    const collaborators: Collaborators
    var events: seq<Event>

    constructor (holder: SecurityContextHolder, collaborators: Collaborators)
      ensures this.holder == holder && this.collaborators == collaborators && events == []
    {
      this.holder := holder;
      this.collaborators := collaborators;
      events := [];
    }

    method Authenticate(req: AuthRequest) returns (o: Outcome)
      modifies this, holder
      ensures var run := Login(req, collaborators);
              && events == old(events) + run.events
              && o == run.outcome
              && holder.authentication == if run.installed.Some? then run.installed else old(holder.authentication)
    {
      var c := collaborators;
      var token := LoginToken(req);
      events := events + [ManagerAuthenticate(token)];
      var answer := c.manager(token);
      if answer.Threw? {
        events := events + [LoginFail];
        return Fail(Rethrow(c, answer.failure));
      }
      var authentication := answer.authentication;
      if authentication.authenticated {
        // A fresh context holding the result replaces the thread's context.
        holder.SetAuthentication(Some(authentication));
        events := events + [SaveContext(authentication)];
        var saveError := c.saveContext(authentication);
        if saveError.Some? {
          events := events + [LoginFail];
          return Fail(Rethrow(c, saveError.value));
        }
        if req.rememberMe {
          events := events + [LoginSuccess(authentication)];
          var successError := c.loginSuccess(authentication);
          if successError.Some? {
            events := events + [LoginFail];
            return Fail(Rethrow(c, successError.value));
          }
        }
      }
      o := Pass;
    }
  }

  /** The manager is asked exactly once, first, with an unauthenticated
      token carrying the request's username and password. */
  lemma ManagerAskedOnceFirst(req: AuthRequest, c: Collaborators)
    ensures var r := Login(req, c);
            && |r.events| > 0 && r.events[0] == ManagerAuthenticate(LoginToken(req))
            && forall i :: 0 < i < |r.events| ==> !r.events[i].ManagerAuthenticate?
  {
  }

  /** With collaborators that do not throw, `loginSuccess` is called
      exactly when the result is authenticated and remember-me was asked
      for; the outcome is normal and an authenticated result is installed. */
  lemma LoginSuccessIff(req: AuthRequest, c: Collaborators)
    requires c.manager(LoginToken(req)).Returned?
    requires forall a :: c.saveContext(a).None? && c.loginSuccess(a).None?
    ensures var a := c.manager(LoginToken(req)).authentication;
            var r := Login(req, c);
            && r.outcome == Pass
            && (LoginSuccess(a) in r.events <==> a.authenticated && req.rememberMe)
            && (r.installed == if a.authenticated then Some(a) else None)
  {
  }

  /** `loginSuccess` never precedes `saveContext`: whenever it is called,
      the context was saved with the same authentication just before. */
  lemma LoginSuccessAfterSave(req: AuthRequest, c: Collaborators, i: nat)
    requires i < |Login(req, c).events| && Login(req, c).events[i].LoginSuccess?
    ensures i > 0 && Login(req, c).events[i - 1] == SaveContext(Login(req, c).events[i].authentication)
  {
  }

  /** A result that is not authenticated saves nothing, calls neither
      `loginSuccess` nor `loginFail`, installs nothing and returns normally. */
  lemma NotAuthenticatedDoesNothing(req: AuthRequest, c: Collaborators)
    requires c.manager(LoginToken(req)).Returned? && !c.manager(LoginToken(req)).authentication.authenticated
    ensures Login(req, c) == Run([ManagerAuthenticate(LoginToken(req))], None, Pass)
  {
  }

  /** When the manager throws, no context is saved or installed,
      `loginFail` runs, and the exception is rethrown unchanged (unless
      `loginFail` itself throws). */
  lemma ManagerThrowsMeansNoSave(req: AuthRequest, c: Collaborators)
    requires c.manager(LoginToken(req)).Threw?
    ensures var r := Login(req, c);
            && (forall i :: 0 <= i < |r.events| ==> !r.events[i].SaveContext?)
            && r.installed.None?
            && LoginFail in r.events
            && (c.loginFail.None? ==> r.outcome == Fail(c.manager(LoginToken(req)).failure))
  {
  }

  /** A failing `saveContext` still leaves the freshly installed
      authentication in the thread's context: the holder is set before the
      save, and the catch block does not undo it. */
  lemma FailedSaveLeavesContextInstalled(req: AuthRequest, c: Collaborators)
    requires c.manager(LoginToken(req)).Returned? && c.manager(LoginToken(req)).authentication.authenticated
    requires c.saveContext(c.manager(LoginToken(req)).authentication).Some?
    ensures Login(req, c).outcome.Fail?
    ensures Login(req, c).installed == Some(c.manager(LoginToken(req)).authentication)
  {
  }
}
