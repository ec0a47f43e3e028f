/**
 * The route table and the global navigation guard of the Vue client
 * (src/vue/src/router/index.js). Before every route change the guard derives a
 * permission scope from the target's `cID` parameter, asks the permissions endpoint
 * for that scope, stores the answer in the application-wide `permissions` field and
 * lets the navigation through or redirects it to the error page.
 */
module Routing {
  import opened Wrappers
  import opened Json

  /** A piece of a route's path pattern: a literal segment or a `:name` parameter. */
  datatype Segment = Lit(text: string) | Param(name: string)

  /** A route's `name`: a string, or (for the Register route) the component object itself. */
  datatype RouteName = Named(text: string) | ComponentName(component: string)

  datatype RouteRecord = RouteRecord(segments: seq<Segment>, name: RouteName, props: bool)

  const CoursePrefix: seq<Segment> := [Lit("Home"), Lit("Course"), Param("cID")]
  const AssignmentPrefix: seq<Segment> := CoursePrefix + [Lit("Assignment"), Param("aID")]

  /** The route table, in the source's order. */
  const Routes: seq<RouteRecord> := [
    RouteRecord([], Named("Guest"), false),                                   // /
    RouteRecord([Lit("Home")], Named("Home"), false),                         // /Home
    RouteRecord([Lit("Register")], ComponentName("Register"), false),         // /Register
    RouteRecord([Lit("Profile")], Named("Profile"), false),                   // /Profile
    RouteRecord([Lit("LtiLaunch")], Named("LtiLaunch"), false),               // /LtiLaunch
    RouteRecord([Lit("AssignmentsOverview")], Named("AssignmentsOverview"), false),
    RouteRecord([Lit("Error")], Named("ErrorPage"), false),                   // /Error
    RouteRecord([Lit("Logout")], Named("Logout"), false),                     // /Logout
    RouteRecord(CoursePrefix, Named("Course"), true),                         // /Home/Course/:cID
    RouteRecord(CoursePrefix + [Lit("CourseEdit")], Named("CourseEdit"), true),
    RouteRecord(CoursePrefix + [Lit("CourseEdit"), Lit("UserRoleConfiguration")],
                Named("UserRoleConfiguration"), true),
    RouteRecord(AssignmentPrefix, Named("Assignment"), true),                 // .../Assignment/:aID
    RouteRecord(AssignmentPrefix + [Lit("AssignmentEdit")], Named("AssignmentEdit"), true),
    RouteRecord(AssignmentPrefix + [Lit("Format")], Named("FormatEdit"), true),
    RouteRecord(AssignmentPrefix + [Lit("Journal"), Param("jID")], Named("Journal"), true)
  ]

  /**
   * Matching the segments of a URL path against a pattern: literals must be equal,
   * a parameter takes one non-empty segment; the parameters bound, in order.
   */
  function Match(pattern: seq<Segment>, url: seq<string>): Option<Dict>
    decreases |pattern|
  {
    if |pattern| != |url| then None
    else if pattern == [] then Some([])
    else
      match Match(pattern[1..], url[1..])
      case None => None
      case Some(rest) =>
        match pattern[0]
        case Lit(t) => if t == url[0] then Some(rest) else None
        case Param(n) => if url[0] != "" then Some([(n, Str(url[0]))] + rest) else None
  }

  /** A successful match binds exactly the pattern's parameters. */
  lemma {:induction false} MatchBindsParams(pattern: seq<Segment>, url: seq<string>, n: string)
    requires Match(pattern, url).Some?
    ensures n in Keys(Match(pattern, url).value) <==> Param(n) in pattern
    decreases |pattern|
  {
    if pattern != [] {
      MatchBindsParams(pattern[1..], url[1..], n);
      assert pattern == [pattern[0]] + pattern[1..];
      var rest := Match(pattern[1..], url[1..]).value;
      if pattern[0].Param? {
        assert Keys([(pattern[0].name, Str(url[0]))] + rest) == [pattern[0].name] + Keys(rest);
      }
    }
  }

  /** A pattern that starts with `/Home/Course/:cID` binds `cID` first, to the third URL segment. */
  lemma MatchCoursePrefix(pattern: seq<Segment>, url: seq<string>)
    requires |pattern| >= 3 && pattern[..3] == CoursePrefix && Match(pattern, url).Some?
    ensures Lookup(Match(pattern, url).value, "cID") == Some(Str(url[2]))
    ensures url[2] != ""
  {
    var m1 := Match(pattern[1..], url[1..]).value;
    var m2 := Match(pattern[2..], url[2..]).value;
    assert pattern[1..][1..] == pattern[2..] && url[1..][1..] == url[2..];
    assert pattern[0] == Lit("Home") && pattern[1] == Lit("Course") && pattern[2] == Param("cID");
    assert m1 == m2;
  }

  /**
   * The permission scope of a navigation: `to.params.cID` when it is truthy, otherwise
   * the site-wide sentinel -1.
   */
  function Scope(params: Dict): (s: Value)
    ensures s == Num(-1) || (Lookup(params, "cID") == Some(s) && Truthy(s))
  {
    match Lookup(params, "cID")
    case Some(c) => if Truthy(c) then c else Num(-1)
    case None => Num(-1)
  }

  /**
   * The scope is site-wide exactly when the target carries no truthy `cID` (absent,
   * empty, 0, null, ...) or a `cID` that is itself -1.
   */
  lemma SiteWideScope(params: Dict)
    ensures Scope(params) == Num(-1) <==>
              (Lookup(params, "cID").None? || !Truthy(Lookup(params, "cID").value)
               || Lookup(params, "cID") == Some(Num(-1)))
  {
  }

  /**
   * Only the seven routes under `/Home/Course/:cID` have a `cID` parameter, and they
   * are exactly the routes that hand their parameters to the component as props.
   */
  lemma CourseRoutesCarryCID(i: nat)
    requires i < |Routes|
    ensures Param("cID") in Routes[i].segments <==> 8 <= i
    ensures Routes[i].props <==> 8 <= i
    ensures 8 <= i ==> Routes[i].segments[..3] == CoursePrefix
  {
    if i >= 8 {
      assert Routes[i].segments[2] == Param("cID");
    }
  }

  /**
   * Navigating to a URL that matches route `i` gives the course id segment as scope
   * for the course routes, and the site-wide scope for every other route.
   */
  lemma ScopeOfMatchedRoute(i: nat, url: seq<string>)
    requires i < |Routes| && Match(Routes[i].segments, url).Some?
    ensures Scope(Match(Routes[i].segments, url).value) == if 8 <= i then Str(url[2]) else Num(-1)
  {
    CourseRoutesCarryCID(i);
    var params := Match(Routes[i].segments, url).value;
    if 8 <= i {
      MatchCoursePrefix(Routes[i].segments, url);
    } else {
      MatchBindsParams(Routes[i].segments, url, "cID");
    }
  }

  /** A navigation target: a route name with its parameters. */
  datatype Location = Location(name: string, params: Dict)

  /** How the permission request settled. */
  datatype Outcome = Resolved(permissions: Value) | Rejected

  /**
   * The argument of a call to the guard's `next`: none, a callback meant to push a
   * location, or a location to redirect to.
   */
  datatype NextArg = Proceed | Callback(push: Location) | RedirectTo(target: Location)

  /**
   * Whether a call of `next` in a global `beforeEach` lets the navigation through.
   * vue-router 3 runs callbacks passed to `next` only for `beforeRouteEnter`; in a
   * global guard a callback is ignored and the call confirms the navigation like
   * `next()`. A location aborts it and starts a navigation to that location.
   */
  predicate Admits(arg: NextArg)
  {
    arg.Proceed? || arg.Callback?
  }

  /** What the guard does, in the order it happens. */
  datatype Event =
    | FetchPermissions(scope: Value)
    | WritePermissions(permissions: Value)
    | Next(arg: NextArg)

  /** The redirect the guard issues when the permission request fails. */
  const ErrorRedirect := Location("ErrorPage", [("errorMessage", Str("Error while loading permissions")),
                                                ("errorCode", Str("401"))])

  /**
   * The guard as written: the request is issued, `next()` is called at once, and only
   * when the request settles are the permissions written and `next` called again.
   */
  function GuardEvents(to: Location, outcome: Outcome): seq<Event>
  {
    [FetchPermissions(Scope(to.params)), Next(Proceed)] +
    match outcome
    case Resolved(p) => [WritePermissions(p), Next(Proceed)]
    case Rejected => [Next(Callback(ErrorRedirect))]
  }

  /**
   * A guard that decides only after the request settled, and on failure redirects
   * with `next({name: 'ErrorPage', params})`.
   */
  function AwaitedEvents(to: Location, outcome: Outcome): seq<Event>
  {
    [FetchPermissions(Scope(to.params))] +
    match outcome
    case Resolved(p) => [WritePermissions(p), Next(Proceed)]
    case Rejected => [Next(RedirectTo(ErrorRedirect))]
  }

  /** Every call of `next` that lets the navigation through comes after a permission write. */
  ghost predicate AdmitsOnlyAfterWrite(events: seq<Event>)
  {
    forall i :: 0 <= i < |events| && events[i].Next? && Admits(events[i].arg) ==>
      exists j :: 0 <= j < i && events[j].WritePermissions?
  }

  /** No call of `next` lets the navigation through. */
  predicate NeverAdmits(events: seq<Event>)
  {
    forall i :: 0 <= i < |events| && events[i].Next? ==> !Admits(events[i].arg)
  }

  /** Some call of `next` redirects to `target`. */
  predicate RedirectsTo(events: seq<Event>, target: Location)
  {
    Next(RedirectTo(target)) in events
  }

  function NextCalls(events: seq<Event>): nat
  {
    if events == [] then 0 else (if events[0].Next? then 1 else 0) + NextCalls(events[1..])
  }

  /**
   * The guard as written admits the navigation before any permissions are written, for
   * every target and every outcome, failures included.
   */
  lemma AsWrittenAdmitsBeforeWrite(to: Location, outcome: Outcome)
    ensures !AdmitsOnlyAfterWrite(GuardEvents(to, outcome))
    ensures GuardEvents(to, outcome)[1] == Next(Proceed)
  {
    var e := GuardEvents(to, outcome);
    assert e[1] == Next(Proceed) && !e[0].WritePermissions?;
  }

  /**
   * On failure the guard as written never redirects: its `next(callback)` admits the
   * navigation like `next()`, and the callback that would push the error page never runs.
   */
  lemma AsWrittenFailureAdmits(to: Location)
    ensures forall i :: 0 <= i < |GuardEvents(to, Rejected)| && GuardEvents(to, Rejected)[i].Next? ==>
              Admits(GuardEvents(to, Rejected)[i].arg)
    ensures !RedirectsTo(GuardEvents(to, Rejected), ErrorRedirect)
  {
    var e := GuardEvents(to, Rejected);
    assert e == [FetchPermissions(Scope(to.params)), Next(Proceed), Next(Callback(ErrorRedirect))];
  }

  /** Admission does not depend on the outcome: the first two steps are the same for both. */
  lemma AsWrittenAdmissionIgnoresOutcome(to: Location, a: Outcome, b: Outcome)
    ensures GuardEvents(to, a)[..2] == GuardEvents(to, b)[..2]
  {
  }

  /** The guard as written calls `next` twice on every navigation. */
  lemma AsWrittenCallsNextTwice(to: Location, outcome: Outcome)
    ensures NextCalls(GuardEvents(to, outcome)) == 2
  {
    var e := GuardEvents(to, outcome);
    assert NextCalls(e) == NextCalls(e[1..]);
    assert NextCalls(e[1..]) == 1 + NextCalls(e[2..]) by { assert e[1..][1..] == e[2..]; }
    if outcome.Resolved? {
      assert NextCalls(e[2..]) == NextCalls(e[3..]) by { assert e[2..][1..] == e[3..]; }
      assert NextCalls(e[3..]) == 1 by { assert e[3..][1..] == []; }
    } else {
      assert NextCalls(e[2..]) == 1 by { assert e[2..][1..] == []; }
    }
  }

  /**
   * The awaited guard admits only after the write; on failure it never admits and
   * redirects to the error page instead; it calls `next` exactly once.
   */
  lemma AwaitedAdmitsOnlyAfterWrite(to: Location, outcome: Outcome)
    ensures AdmitsOnlyAfterWrite(AwaitedEvents(to, outcome))
    ensures outcome.Rejected? <==> NeverAdmits(AwaitedEvents(to, outcome))
    ensures outcome.Rejected? <==> RedirectsTo(AwaitedEvents(to, outcome), ErrorRedirect)
    ensures NextCalls(AwaitedEvents(to, outcome)) == 1
  {
    var e := AwaitedEvents(to, outcome);
    assert NextCalls(e) == NextCalls(e[1..]);
    if outcome.Resolved? {
      assert e[1].WritePermissions? && e[2] == Next(Proceed);
      assert NextCalls(e[1..]) == NextCalls(e[2..]) by { assert e[1..][1..] == e[2..]; }
      assert NextCalls(e[2..]) == 1 by { assert e[2..][1..] == []; }
    } else {
      assert NextCalls(e[1..]) == 1 by { assert e[1..][1..] == []; }
    }
  }

  /**
   * The corrected guard's error redirect names the route at `/Error`, which has no
   * parameters, so the navigation it starts asks for site-wide permissions.
   */
  lemma ErrorRedirectIsSiteWide()
    ensures Routes[6].name == Named(ErrorRedirect.name) && Routes[6].segments == [Lit("Error")]
    ensures forall i :: 0 <= i < |Routes| && i != 6 ==> Routes[i].name != Named("ErrorPage")
    ensures Scope(ErrorRedirect.params) == Num(-1)
  {
    assert ErrorRedirect.params[1..][1..] == [];
  }

  /** The application object with its shared `permissions` field and a log of the guard's steps. */
  class Router {
    /** `router.app.permissions`, written only by the guard. */
    var permissions: Value
    /** Everything the guard did, in order, over all navigations so far. */
    var trace: seq<Event>

    constructor (initial: Value)
      ensures permissions == initial && trace == []
    {
      permissions := initial;
      trace := [];
    }

    /**
     * `router.beforeEach` as written. On success the permissions are replaced
     * wholesale by the resolved value; on failure they are left alone.
     */
    method BeforeEach(to: Location, outcome: Outcome)
      modifies this
      ensures permissions == (if outcome.Resolved? then outcome.permissions else old(permissions))
      ensures trace == old(trace) + GuardEvents(to, outcome)
    {
      var params: Value;
      var cID := Lookup(to.params, "cID");
      if cID.Some? && Truthy(cID.value) {
        params := cID.value;
      } else {
        params := Num(-1);
      }
      trace := trace + [FetchPermissions(params)];
      trace := trace + [Next(Proceed)];
      match outcome {
        case Resolved(response) =>
          permissions := response;
          trace := trace + [WritePermissions(response), Next(Proceed)];
        case Rejected =>
          trace := trace + [Next(Callback(ErrorRedirect))];
      }
    }

    /** The corrected guard: the decision waits for the request to settle. */
    method BeforeEachAwaited(to: Location, outcome: Outcome)
      modifies this
      ensures permissions == (if outcome.Resolved? then outcome.permissions else old(permissions))
      ensures trace == old(trace) + AwaitedEvents(to, outcome)
    {
      var params: Value;
      var cID := Lookup(to.params, "cID");
      if cID.Some? && Truthy(cID.value) {
        params := cID.value;
      } else {
        params := Num(-1);
      }
      trace := trace + [FetchPermissions(params)];
      match outcome {
        case Resolved(response) =>
          permissions := response;
          trace := trace + [WritePermissions(response), Next(Proceed)];
        case Rejected =>
          trace := trace + [Next(RedirectTo(ErrorRedirect))];
      }
    }
  }
}
