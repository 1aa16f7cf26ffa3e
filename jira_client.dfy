/**
 * The client's token session and its favourite-filter lookup.
 *
 * A client made with credentials logs in lazily, caches the token it gets, and hands the token
 * to every operation run through `WithToken`; when the operation fails with an authentication
 * fault the client logs in once more and runs the operation once more with the new token. A
 * client made without credentials hands every operation the empty string and never logs in.
 * The remote login is the oracle `login`, which gives the reply to the n-th login call (n counted
 * from 0); whether a remote fault is an authentication fault is decided by `isAuthFault` on the
 * fault's message.
 */
module JiraClient {
  import opened Wrappers
  import Text

  datatype Credentials = Credentials(username: string, password: string)

  /** The reply to one call of the remote `Login`. */
  datatype LoginReply = Issued(token: string) | Refused(message: string)

  /** What an operation, or the session on its behalf, throws. */
  datatype Fault =
    | RemoteFault(message: string)     // a fault reported by the remote service
    | OperationError(message: string)  // any other exception of the operation
    | LoginError(message: string)      // the remote login itself failed

  /** How one run of an operation ends. */
  datatype Outcome<T> = Returned(value: T) | Threw(fault: Fault)

  /** The session state that `WithToken` changes: the cached token ("" when there is none) and
      the number of login calls made so far. */
  datatype Session = Session(token: string, loginCalls: nat)

  /** One `WithToken` call: its outcome, the tokens the operation was given, in order, and the
      session afterwards. */
  datatype Run<T> = Run(outcome: Outcome<T>, tokensPassed: seq<string>, after: Session)

  const FreshSession := Session("", 0)

  predicate IsAuthFault<T>(isAuthFault: string -> bool, o: Outcome<T>)
  {
    o.Threw? && o.fault.RemoteFault? && isAuthFault(o.fault.message)
  }

  /** One remote login: the call is counted, and an issued token is cached. */
  function LoginCall(login: nat -> LoginReply, s: Session): (Result<string, Fault>, Session)
  {
    match login(s.loginCalls)
    case Issued(t) => (Success(t), Session(t, s.loginCalls + 1))
    case Refused(m) => (Failure(LoginError(m)), Session(s.token, s.loginCalls + 1))
  }

  /** The token for the next operation: the cached one, or a fresh login when none is cached. */
  function CurrentToken(login: nat -> LoginReply, s: Session): (Result<string, Fault>, Session)
  {
    if s.token != "" then (Success(s.token), s) else LoginCall(login, s)
  }

  /** What `WithToken` does, as a function of the session before the call. */
  function WithTokenRun<T>(credentials: Option<Credentials>, login: nat -> LoginReply,
                           isAuthFault: string -> bool, s: Session, op: string -> Outcome<T>): Run<T>
  {
    if credentials.None? then Run(op(""), [""], s)
    else
      var (got, s1) := CurrentToken(login, s);
      if got.Failure? then Run(Threw(got.error), [], s1)
      else
        var first := op(got.value);
        if !IsAuthFault(isAuthFault, first) then Run(first, [got.value], s1)
        else
          var (again, s2) := LoginCall(login, Session("", s1.loginCalls));
          if again.Failure? then Run(Threw(again.error), [got.value], s2)
          else Run(op(again.value), [got.value, again.value], s2)
  }

  /** The client: fixed credentials and remote replies, a cached token and a login counter. */
  class Jira {
    const credentials: Option<Credentials>
    const login: nat -> LoginReply
    const isAuthFault: string -> bool
    var token: string
    var loginCalls: nat

    function State(): Session
      reads this
    {
      Session(token, loginCalls)
    }

    constructor (credentials: Option<Credentials>, login: nat -> LoginReply, isAuthFault: string -> bool)
      ensures this.credentials == credentials && this.login == login && this.isAuthFault == isAuthFault
      ensures State() == FreshSession
    {
      this.credentials := credentials;
      this.login := login;
      this.isAuthFault := isAuthFault;
      token := "";
      loginCalls := 0;
    }

    /** Calls the remote login once and caches the token it issues. */
    method Login() returns (r: Result<string, Fault>)
      modifies this
      ensures (r, State()) == LoginCall(login, old(State()))
    {
      var reply := login(loginCalls);
      loginCalls := loginCalls + 1;
      match reply {
        case Issued(t) =>
          token := t;
          r := Success(t);
        case Refused(m) =>
          r := Failure(LoginError(m));
      }
    }

    /**
     * Runs `op` with a token. Returns how the run ended and the tokens `op` was given, in order;
     * the state afterwards is the one `WithTokenRun` describes.
     */
    method WithToken<T(==)>(op: string -> Outcome<T>) returns (r: Outcome<T>, passed: seq<string>)
      modifies this
      ensures Run(r, passed, State()) == WithTokenRun(credentials, login, isAuthFault, old(State()), op)
    {
      if credentials.None? {
        r := op("");
        passed := [""];
        return;
      }
      if token == "" {
        var got := Login();
        if got.Failure? {
          r := Threw(got.error);
          passed := [];
          return;
        }
      }
      var first := token;
      r := op(first);
      passed := [first];
      if r.Threw? && r.fault.RemoteFault? && isAuthFault(r.fault.message) {
        token := "";
        var again := Login();
        if again.Failure? {
          r := Threw(again.error);
          return;
        }
        r := op(token);
        passed := passed + [token];
      }
    }
  }

  /** Without credentials the operation gets "" and its outcome, whatever it is, is returned;
      the session is untouched, so no login is ever made and the next call gets "" again. */
  lemma AnonymousNeverLogsIn<T>(login: nat -> LoginReply, isAuthFault: string -> bool, s: Session,
                                op: string -> Outcome<T>)
    ensures WithTokenRun(None, login, isAuthFault, s, op) == Run(op(""), [""], s)
  {
  }

  /** With credentials and no cached token, the first login's token is cached and passed on. */
  lemma FirstCallLogsIn<T>(c: Credentials, login: nat -> LoginReply, isAuthFault: string -> bool,
                           s: Session, op: string -> Outcome<T>, t: string)
    requires s.token == "" && login(s.loginCalls) == Issued(t)
    requires !IsAuthFault(isAuthFault, op(t))
    ensures WithTokenRun(Some(c), login, isAuthFault, s, op) == Run(op(t), [t], Session(t, s.loginCalls + 1))
  {
  }

  /** A cached token is reused without a login call. */
  lemma CachedTokenReused<T>(c: Credentials, login: nat -> LoginReply, isAuthFault: string -> bool,
                             s: Session, op: string -> Outcome<T>)
    requires s.token != ""
    requires !IsAuthFault(isAuthFault, op(s.token))
    ensures WithTokenRun(Some(c), login, isAuthFault, s, op) == Run(op(s.token), [s.token], s)
  {
  }

  /** An authentication fault on the cached token causes one login and one retry with the new
      token; what the retry ends with is what the call ends with. */
  lemma AuthFaultRetriesOnce<T>(c: Credentials, login: nat -> LoginReply, isAuthFault: string -> bool,
                                s: Session, op: string -> Outcome<T>, t2: string)
    requires s.token != "" && IsAuthFault(isAuthFault, op(s.token))
    requires login(s.loginCalls) == Issued(t2)
    ensures WithTokenRun(Some(c), login, isAuthFault, s, op)
         == Run(op(t2), [s.token, t2], Session(t2, s.loginCalls + 1))
  {
  }

  /** Any other failure of the operation propagates unchanged: no login, the token is kept. */
  lemma OtherFaultPropagates<T>(c: Credentials, login: nat -> LoginReply, isAuthFault: string -> bool,
                                s: Session, op: string -> Outcome<T>)
    requires s.token != "" && op(s.token).Threw? && !IsAuthFault(isAuthFault, op(s.token))
    ensures WithTokenRun(Some(c), login, isAuthFault, s, op) == Run(op(s.token), [s.token], s)
  {
  }

  /**
   * Every call runs the operation at most twice and logs in at most twice; the operation is
   * re-run only after an authentication fault, and unless a login failed the call ends as the
   * operation's last run ended.
   */
  lemma RetryIsBounded<T>(credentials: Option<Credentials>, login: nat -> LoginReply,
                          isAuthFault: string -> bool, s: Session, op: string -> Outcome<T>)
    ensures
      var run := WithTokenRun(credentials, login, isAuthFault, s, op);
      && |run.tokensPassed| <= 2
      && s.loginCalls <= run.after.loginCalls <= s.loginCalls + 2
      && (credentials.None? ==> run.after == s)
      && (|run.tokensPassed| == 2 ==> IsAuthFault(isAuthFault, op(run.tokensPassed[0])))
      && (run.tokensPassed != [] && !(run.outcome.Threw? && run.outcome.fault.LoginError?)
          ==> run.outcome == op(run.tokensPassed[|run.tokensPassed| - 1]))
  {
  }

  /** Two consecutive calls of an operation that succeeds: one login, the same token both times. */
  lemma {:induction false} SecondCallReusesToken<T>(c: Credentials, login: nat -> LoginReply,
                                                    isAuthFault: string -> bool, op: string -> Outcome<T>, t: string)
    requires t != "" && login(0) == Issued(t)
    requires !IsAuthFault(isAuthFault, op(t))
    ensures
      var first := WithTokenRun(Some(c), login, isAuthFault, FreshSession, op);
      var second := WithTokenRun(Some(c), login, isAuthFault, first.after, op);
      && first.tokensPassed == [t] && second.tokensPassed == [t]
      && second.after == Session(t, 1)
  {
    FirstCallLogsIn(c, login, isAuthFault, FreshSession, op, t);
    CachedTokenReused(c, login, isAuthFault, Session(t, 1), op);
  }

  /**
   * Logins issue "token1" and then "token2"; an operation that fails with an authentication
   * fault on "token1" runs a second time, with "token2", after one more login.
   */
  lemma {:induction false} NewTokenAfterAuthFault(c: Credentials, isAuthFault: string -> bool, message: string)
    requires isAuthFault(message)
    ensures
      var login := (n: nat) => if n == 0 then Issued("token1") else Issued("token2");
      var record := (t: string) => Returned(t);
      var rejectFirst := (t: string) => if t == "token1" then Threw(RemoteFault(message)) else Returned(t);
      var first := WithTokenRun(Some(c), login, isAuthFault, FreshSession, record);
      var second := WithTokenRun(Some(c), login, isAuthFault, first.after, rejectFirst);
      && first.outcome == Returned("token1")
      && second.tokensPassed == ["token1", "token2"]
      && second.outcome == Returned("token2")
      && second.after == Session("token2", 2)
  {
    var login := (n: nat) => if n == 0 then Issued("token1") else Issued("token2");
    var record := (t: string) => Returned(t);
    var rejectFirst := (t: string) => if t == "token1" then Threw(RemoteFault(message)) else Returned(t);
    FirstCallLogsIn(c, login, isAuthFault, FreshSession, record, "token1");
    AuthFaultRetriesOnce(c, login, isAuthFault, Session("token1", 1), rejectFirst, "token2");
  }

  /** A favourite filter of the user. */
  datatype RemoteFilter = RemoteFilter(id: string, name: string)

  /** The remote query `GetIssuesFromFilterWithLimit` is called with. */
  datatype FilterQuery = FilterQuery(filterId: string, offset: int, maxResults: int)

  /** Thrown (as `InvalidOperationException`) when no favourite filter has the given name. */
  datatype FilterError = FilterNotFound(name: string)

  /**
   * `GetIssuesFromFilter`: the id of the first favourite filter called `filterName`, passed on
   * with the caller's offset and limit (0 and 20 by default); no such filter is an error.
   */
  function IssuesFromFilterQuery(favourites: seq<RemoteFilter>, filterName: string,
                                 start: int := 0, maxResults: int := 20): (r: Result<FilterQuery, FilterError>)
    ensures r.Failure? <==> forall i :: 0 <= i < |favourites| ==> favourites[i].name != filterName
    ensures r.Failure? ==> r.error == FilterNotFound(filterName)
    ensures r.Success? ==>
              (exists i :: && 0 <= i < |favourites| && favourites[i].name == filterName
                           && (forall j :: 0 <= j < i ==> favourites[j].name != filterName)
                           && r.value == FilterQuery(favourites[i].id, start, maxResults))
  {
    match Text.FirstIndex(favourites, (f: RemoteFilter) => f.name == filterName)
    case None => Failure(FilterNotFound(filterName))
    case Some(i) => Success(FilterQuery(favourites[i].id, start, maxResults))
  }

  /** Leaving out the offset and the limit asks for 20 issues from 0. */
  lemma FilterQueryDefaults(favourites: seq<RemoteFilter>, filterName: string)
    ensures IssuesFromFilterQuery(favourites, filterName) == IssuesFromFilterQuery(favourites, filterName, 0, 20)
    ensures IssuesFromFilterQuery([RemoteFilter("123", "thefilter")], "thefilter") == Success(FilterQuery("123", 0, 20))
    ensures IssuesFromFilterQuery([], filterName).Failure?
  {
  }
}
