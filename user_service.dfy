/**
 * Resource strings of the user service's REST calls. Each is one formatted string whose query
 * key depends on the user-privacy flag. URI escaping (`Uri.EscapeUriString`) is the parameter
 * `escape`.
 */
module UserService {
  import opened Text
  import opened Query

  /** A set of user states to search for (the `Active` and `Inactive` flags). */
  datatype UserStatus = UserStatus(active: bool, inactive: bool)

  const ActiveUsers := UserStatus(active := true, inactive := false)

  /** The resource of `CreateUserAsync` (a POST). */
  const CreateUserResource := "rest/api/2/user"

  /** The resource of `GetMyselfAsync` (a GET). */
  const MyselfResource := "rest/api/2/myself"

  /** The query key naming a user: `accountId` under user privacy, else `username`. */
  function UserKey(privacyEnabled: bool): string
  {
    if privacyEnabled then "accountId" else "username"
  }

  /** The query key of a search: `query` under privacy, else `username`. */
  function SearchKey(privacyEnabled: bool): string
  {
    if privacyEnabled then "query" else "username"
  }

  /** The resource of `DeleteUserAsync`, as that method formats it. */
  function DeleteUserResource(privacyEnabled: bool, usernameOrAccountId: string, escape: string -> string): string
  {
    "rest/api/2/user?" + UserKey(privacyEnabled) + "=" + escape(usernameOrAccountId)
  }

  /** The resource of `GetUserAsync`, as that method formats it. */
  function GetUserResource(privacyEnabled: bool, usernameOrAccountId: string, escape: string -> string): string
  {
    "rest/api/2/user?" + UserKey(privacyEnabled) + "=" + escape(usernameOrAccountId)
  }

  /** The resource of `SearchUsersAsync`, with the method's defaults for the optional arguments. */
  function SearchUsersResource(privacyEnabled: bool, query: string, escape: string -> string,
                               userStatus: UserStatus := ActiveUsers, maxResults: int := 50, startAt: int := 0): string
  {
    "rest/api/2/user/search?" + SearchKey(privacyEnabled) + "=" + escape(query)
    + "&includeActive=" + BoolText(userStatus.active)
    + "&includeInactive=" + BoolText(userStatus.inactive)
    + "&startAt=" + IntText(startAt)
    + "&maxResults=" + IntText(maxResults)
  }

  /** Creating a user addresses the bare user path, with no query. */
  lemma CreateResourceBare()
    ensures ParseResource(CreateUserResource) == (CreateUserResource, [])
  {
    assert '?' !in CreateUserResource;
  }

  /** Reading one's own user addresses a bare path, with no query. */
  lemma MyselfResourceBare()
    ensures ParseResource(MyselfResource) == (MyselfResource, [])
  {
    assert '?' !in MyselfResource;
  }

  /** Getting and deleting a user address the same resource. */
  lemma GetAndDeleteAgree(privacyEnabled: bool, id: string, escape: string -> string)
    ensures GetUserResource(privacyEnabled, id, escape) == DeleteUserResource(privacyEnabled, id, escape)
  {
  }

  /**
   * The user resource carries exactly one parameter, keyed `accountId` under privacy and
   * `username` otherwise, whose value is the escaped identifier (when that holds no `&`).
   */
  lemma UserResourceParameters(privacyEnabled: bool, id: string, escape: string -> string)
    requires '&' !in escape(id)
    ensures ParseResource(GetUserResource(privacyEnabled, id, escape))
         == (CreateUserResource, [(UserKey(privacyEnabled), escape(id))])
  {
    var ps := [(UserKey(privacyEnabled), escape(id))];
    assert RenderQuery(ps) == UserKey(privacyEnabled) + "=" + escape(id);
    assert GetUserResource(privacyEnabled, id, escape) == Resource("rest/api/2/user", ps);
    ParseResourceRoundTrip("rest/api/2/user", ps);
  }

  /** The parameters a search sends, in order. */
  function SearchParameters(privacyEnabled: bool, query: string, escape: string -> string,
                            userStatus: UserStatus, maxResults: int, startAt: int): seq<Parameter>
  {
    [ (SearchKey(privacyEnabled), escape(query)),
      ("includeActive", BoolText(userStatus.active)),
      ("includeInactive", BoolText(userStatus.inactive)),
      ("startAt", IntText(startAt)),
      ("maxResults", IntText(maxResults)) ]
  }

  lemma IntTextSeparable(n: int)
    ensures '&' !in IntText(n) && '=' !in IntText(n)
  {
  }

  /** The query string of the search parameters, parameter by parameter. */
  lemma SearchQueryText(ps: seq<Parameter>)
    requires |ps| == 5
    ensures RenderQuery(ps) == RenderParameter(ps[0]) + ("&" + RenderParameter(ps[1])
              + ("&" + RenderParameter(ps[2]) + ("&" + RenderParameter(ps[3]) + ("&" + RenderParameter(ps[4])))))
  {
    RenderQueryCons(ps[3], ps[4..]);
    assert [ps[3]] + ps[4..] == ps[3..];
    RenderQueryCons(ps[2], ps[3..]);
    assert [ps[2]] + ps[3..] == ps[2..];
    RenderQueryCons(ps[1], ps[2..]);
    assert [ps[1]] + ps[2..] == ps[1..];
    RenderQueryCons(ps[0], ps[1..]);
    assert [ps[0]] + ps[1..] == ps;
    assert RenderQuery(ps[4..]) == RenderParameter(ps[4]);
  }

  /** A resource built from five separable parameters, one at a time, parses back into them. */
  lemma ParseFiveParameters(path: string, ps: seq<Parameter>, r: string)
    requires '?' !in path && |ps| == 5
    requires forall k :: 0 <= k < 5 ==> Separable(ps[k])
    requires r == path + "?" + (RenderParameter(ps[0]) + ("&" + RenderParameter(ps[1])
              + ("&" + RenderParameter(ps[2]) + ("&" + RenderParameter(ps[3]) + ("&" + RenderParameter(ps[4]))))))
    ensures ParseResource(r) == (path, ps)
  {
    SearchQueryText(ps);
    ParseResourceRoundTrip(path, ps);
  }

  /** Regrouping of a resource built one parameter at a time. */
  lemma ConcatFive(p: string, r0: string, r1: string, r2: string, r3: string, r4: string,
                   x0: string, x1: string, x2: string, x3: string, x4: string)
    requires x0 == p + r0 && x1 == x0 + ("&" + r1) && x2 == x1 + ("&" + r2)
    requires x3 == x2 + ("&" + r3) && x4 == x3 + ("&" + r4)
    ensures x4 == p + (r0 + ("&" + r1 + ("&" + r2 + ("&" + r3 + ("&" + r4)))))
  {
  }

  /** Appending `&key=value` to a resource, as the search format does. */
  lemma AppendParameter(x: string, key: string, value: string)
    ensures x + ("&" + key + "=") + value == x + ("&" + RenderParameter((key, value)))
  {
  }

  /** The search resource regrouped as its path, `?`, and its five parameters. */
  lemma SearchResourceShape(k: string, v: string, a: string, i: string, s: string, m: string)
    ensures "rest/api/2/user/search?" + k + "=" + v + "&includeActive=" + a + "&includeInactive=" + i
            + "&startAt=" + s + "&maxResults=" + m
         == "rest/api/2/user/search" + "?" + (RenderParameter((k, v)) + ("&" + RenderParameter(("includeActive", a))
            + ("&" + RenderParameter(("includeInactive", i)) + ("&" + RenderParameter(("startAt", s))
            + ("&" + RenderParameter(("maxResults", m)))))))
  {
    var x0 := "rest/api/2/user/search?" + k + "=" + v;
    assert x0 == ("rest/api/2/user/search" + "?") + RenderParameter((k, v));
    assert "&includeActive=" == "&" + "includeActive" + "=";
    AppendParameter(x0, "includeActive", a);
    var x1 := x0 + "&includeActive=" + a;
    assert "&includeInactive=" == "&" + "includeInactive" + "=";
    AppendParameter(x1, "includeInactive", i);
    var x2 := x1 + "&includeInactive=" + i;
    assert "&startAt=" == "&" + "startAt" + "=";
    AppendParameter(x2, "startAt", s);
    var x3 := x2 + "&startAt=" + s;
    assert "&maxResults=" == "&" + "maxResults" + "=";
    AppendParameter(x3, "maxResults", m);
    var x4 := x3 + "&maxResults=" + m;
    ConcatFive("rest/api/2/user/search" + "?", RenderParameter((k, v)), RenderParameter(("includeActive", a)),
               RenderParameter(("includeInactive", i)), RenderParameter(("startAt", s)),
               RenderParameter(("maxResults", m)), x0, x1, x2, x3, x4);
  }

  /**
   * A search resource reads back as the search path with the key chosen by the flag, then
   * `includeActive` and `includeInactive` from the two status flags, then `startAt` before
   * `maxResults` (when the escaped query holds no `&`).
   */
  lemma SearchResourceParameters(privacyEnabled: bool, query: string, escape: string -> string,
                                 userStatus: UserStatus, maxResults: int, startAt: int)
    requires '&' !in escape(query)
    ensures ParseResource(SearchUsersResource(privacyEnabled, query, escape, userStatus, maxResults, startAt))
         == ("rest/api/2/user/search", SearchParameters(privacyEnabled, query, escape, userStatus, maxResults, startAt))
  {
    var ps := SearchParameters(privacyEnabled, query, escape, userStatus, maxResults, startAt);
    IntTextSeparable(startAt);
    IntTextSeparable(maxResults);
    SearchResourceShape(SearchKey(privacyEnabled), escape(query), BoolText(userStatus.active),
                        BoolText(userStatus.inactive), IntText(startAt), IntText(maxResults));
    ParseFiveParameters("rest/api/2/user/search", ps,
                        SearchUsersResource(privacyEnabled, query, escape, userStatus, maxResults, startAt));
  }

  /** Without optional arguments a search asks for active users only, 50 results from 0. */
  lemma SearchDefaults(privacyEnabled: bool, query: string, escape: string -> string)
    ensures SearchUsersResource(privacyEnabled, query, escape)
         == SearchUsersResource(privacyEnabled, query, escape, UserStatus(true, false), 50, 0)
    ensures SearchParameters(privacyEnabled, query, escape, ActiveUsers, 50, 0)[1..]
         == [("includeActive", "True"), ("includeInactive", "False"), ("startAt", "0"), ("maxResults", "50")]
  {
    assert IntText(0) == "0" by { assert Digit(0) == '0'; }
    assert IntText(50) == "50" by {
      assert Digit(5) == '5' && Digit(0) == '0';
      assert NatText(50) == NatText(5) + [Digit(0)];
    }
    assert BoolText(true) == "True" && BoolText(false) == "False";
  }
}
