/**
 * The app's navigation graph: the `Screen` route table, the start
 * destination, the three literal routes, and how a route string is
 * resolved to the screen it shows, with the id argument of the three
 * parameterised routes decoded by `toIntOrNull()`.
 */
module NavGraph {
  import opened Wrappers
  import opened KotlinText

  /** The sealed class `Screen`: twelve objects, each with a constant route. */
  datatype Screen =
    | Login | Register | CourseSchedule | Assignments | StudyGroups | Profile
    | AddCourse | EditCourse | AddAssignment | EditAssignment | CreateGroup | GroupDetail

  function Route(s: Screen): string {
    match s
    case Login => "login"
    case Register => "register"
    case CourseSchedule => "course_schedule"
    case Assignments => "assignments"
    case StudyGroups => "study_groups"
    case Profile => "profile"
    case AddCourse => "add_course"
    case EditCourse => "edit_course"
    case AddAssignment => "add_assignment"
    case EditAssignment => "edit_assignment"
    case CreateGroup => "create_group"
    case GroupDetail => "group_detail"
  }

  const AllScreens: seq<Screen> := [
    Login, Register, CourseSchedule, Assignments, StudyGroups, Profile,
    AddCourse, EditCourse, AddAssignment, EditAssignment, CreateGroup, GroupDetail]

  /** Destinations registered under a plain string rather than a `Screen`. */
  const LiteralRoutes: seq<string> := ["ai_note", "assignment_help", "learning_analytics"]

  /** The screens registered as `route + "/{name}"`, with an Int id argument. */
  predicate HasIdArgument(s: Screen) {
    s == EditCourse || s == EditAssignment || s == GroupDetail
  }

  function ArgumentName(s: Screen): string
    requires HasIdArgument(s)
  {
    match s
    case EditCourse => "courseId"
    case EditAssignment => "assignmentId"
    case GroupDetail => "groupId"
  }

  /** The route template a screen is registered under in the NavHost. */
  function Template(s: Screen): (t: string)
    ensures !HasIdArgument(s) ==> t == Route(s)
    ensures HasIdArgument(s) ==> t == Route(s) + "/{" + ArgumentName(s) + "}"
  {
    if HasIdArgument(s) then Route(s) + "/{" + ArgumentName(s) + "}" else Route(s)
  }

  /** Every route string registered in the NavHost, in registration order. */
  function RegisteredRoutes(): (rs: seq<string>)
    ensures |rs| == |AllScreens| + |LiteralRoutes|
  {
    seq(|AllScreens|, i requires 0 <= i < |AllScreens| => Template(AllScreens[i])) + LiteralRoutes
  }

  /** What a navigation to a route string shows. */
  datatype Destination =
    | Shows(screen: Screen)
    | ShowsWithId(screen: Screen, id: Option<int>)
    | ShowsLiteral(route: string)

  /** `startDestination = Screen.Login.route` */
  function StartDestination(): (r: string)
    ensures Resolve(r) == Some(Shows(Login))
  {
    ResolvePlainRoute(Login);
    Route(Login)
  }

  /** How a screen navigates to a parameterised route: `"${Screen.X.route}/${id}"`. */
  function RouteWithId(s: Screen, id: int): (r: string)
    requires HasIdArgument(s)
    ensures SegmentAfter(r, Route(s) + "/") == Some(IntText(id))
  {
    var prefix := Route(s) + "/";
    var text := IntText(id);
    assert '/' !in text by {
      if id < 0 {
        assert text == [text[0]] + text[1..];
      }
    }
    assert (prefix + text)[..|prefix|] == prefix;
    assert (prefix + text)[|prefix|..] == text;
    prefix + text
  }

  /**
   * `backStackEntry.arguments?.getString(name)?.toIntOrNull()`: a missing
   * argument and one that is not an Int's decimal text both give null.
   */
  function DecodeId(argument: Option<string>): (id: Option<int>)
    ensures argument == None ==> id == None
    ensures id.Some? ==> IsInt(id.value)
  {
    match argument
    case None => None
    case Some(text) => ParseInt(text)
  }

  /** The path segment after `prefix`, when `route` is `prefix` plus one non-empty segment. */
  function SegmentAfter(route: string, prefix: string): Option<string> {
    if |prefix| < |route| && route[..|prefix|] == prefix && '/' !in route[|prefix|..]
    then Some(route[|prefix|..])
    else None
  }

  function FindPlain(route: string, screens: seq<Screen>): (r: Option<Screen>)
    ensures r.Some? ==> r.value in screens && Route(r.value) == route && !HasIdArgument(r.value)
  {
    if screens == [] then None
    else if Route(screens[0]) == route && !HasIdArgument(screens[0]) then Some(screens[0])
    else FindPlain(route, screens[1..])
  }

  /**
   * The NavHost's choice of destination for a route string: a literal
   * route, a plain screen route, or a parameterised base followed by one
   * segment, whose text is decoded as the id. Any other string matches
   * no destination.
   */
  function Resolve(route: string): (d: Option<Destination>)
    ensures d.Some? && d.value.ShowsLiteral? ==> d.value.route == route && route in LiteralRoutes
    ensures d.Some? && d.value.Shows? ==> Route(d.value.screen) == route && !HasIdArgument(d.value.screen)
    ensures d.Some? && d.value.ShowsWithId? ==>
      && HasIdArgument(d.value.screen)
      && SegmentAfter(route, Route(d.value.screen) + "/").Some?
      && d.value.id == DecodeId(SegmentAfter(route, Route(d.value.screen) + "/"))
  {
    if route in LiteralRoutes then Some(ShowsLiteral(route))
    else if FindPlain(route, AllScreens).Some? then Some(Shows(FindPlain(route, AllScreens).value))
    else if SegmentAfter(route, Route(EditCourse) + "/").Some? then
      Some(ShowsWithId(EditCourse, DecodeId(SegmentAfter(route, Route(EditCourse) + "/"))))
    else if SegmentAfter(route, Route(EditAssignment) + "/").Some? then
      Some(ShowsWithId(EditAssignment, DecodeId(SegmentAfter(route, Route(EditAssignment) + "/"))))
    else if SegmentAfter(route, Route(GroupDetail) + "/").Some? then
      Some(ShowsWithId(GroupDetail, DecodeId(SegmentAfter(route, Route(GroupDetail) + "/"))))
    else None
  }

  // ---------------------------------------------------------------------
  // Properties of the route table

  /** The twelve `Screen` routes are pairwise distinct. */
  lemma RouteInjective(a: Screen, b: Screen)
    requires Route(a) == Route(b)
    ensures a == b
  {
  }

  /** The literal routes are distinct from each other and from every `Screen` route. */
  lemma LiteralRoutesDistinct(s: Screen)
    ensures Route(s) !in LiteralRoutes
    ensures forall i, j :: 0 <= i < j < |LiteralRoutes| ==> LiteralRoutes[i] != LiteralRoutes[j]
  {
  }

  lemma NoSlashInRoutes(s: Screen)
    ensures '/' !in Route(s)
    ensures forall i :: 0 <= i < |LiteralRoutes| ==> '/' !in LiteralRoutes[i]
  {
  }

  /**
   * A fingerprint of each template: its length and first letter. The
   * twelve fingerprints differ, which is cheaper to compare than the
   * templates themselves.
   */
  function TemplateKey(s: Screen): (int, char) {
    match s
    case Login => (5, 'l')
    case Register => (8, 'r')
    case CourseSchedule => (15, 'c')
    case Assignments => (11, 'a')
    case StudyGroups => (12, 's')
    case Profile => (7, 'p')
    case AddCourse => (10, 'a')
    case EditCourse => (22, 'e')
    case AddAssignment => (14, 'a')
    case EditAssignment => (30, 'e')
    case CreateGroup => (12, 'c')
    case GroupDetail => (22, 'g')
  }

  lemma TemplateHasKey(s: Screen)
    ensures Template(s) != [] && (|Template(s)|, Template(s)[0]) == TemplateKey(s)
  {
  }

  /** Two screens registered under the same template are the same screen. */
  lemma TemplateInjective(a: Screen, b: Screen)
    requires Template(a) == Template(b)
    ensures a == b
  {
    TemplateHasKey(a);
    TemplateHasKey(b);
  }

  /** No two registered destinations share a route template. */
  lemma RegisteredRoutesDistinct()
    ensures forall i, j :: 0 <= i < j < |RegisteredRoutes()| ==> RegisteredRoutes()[i] != RegisteredRoutes()[j]
  {
    var rs := RegisteredRoutes();
    var n := |AllScreens|;
    forall i, j | 0 <= i < j < |rs|
      ensures rs[i] != rs[j]
    {
      if j < n {
        if rs[i] == rs[j] {
          TemplateInjective(AllScreens[i], AllScreens[j]);
        }
      } else if i < n {
        LiteralRoutesDistinct(AllScreens[i]);
        NoSlashInRoutes(AllScreens[i]);
        if HasIdArgument(AllScreens[i]) {
          assert rs[i][|Route(AllScreens[i])|] == '/';
        }
      } else {
        LiteralRoutesDistinct(Login);
      }
    }
  }

  // ---------------------------------------------------------------------
  // Properties of route resolution

  /** Every plain `Screen` route shows its own screen. */
  lemma ResolvePlainRoute(s: Screen)
    requires !HasIdArgument(s)
    ensures Resolve(Route(s)) == Some(Shows(s))
  {
    LiteralRoutesDistinct(s);
    var found := FindPlain(Route(s), AllScreens);
    assert s in AllScreens;
    FindPlainFinds(Route(s), AllScreens, s);
    RouteInjective(found.value, s);
  }

  lemma {:induction false} FindPlainFinds(route: string, screens: seq<Screen>, s: Screen)
    requires s in screens && Route(s) == route && !HasIdArgument(s)
    ensures FindPlain(route, screens).Some?
  {
    if Route(screens[0]) != route || HasIdArgument(screens[0]) {
      FindPlainFinds(route, screens[1..], s);
    }
  }

  /** Each literal route shows its own destination. */
  lemma ResolveLiteralRoute(i: nat)
    requires i < |LiteralRoutes|
    ensures Resolve(LiteralRoutes[i]) == Some(ShowsLiteral(LiteralRoutes[i]))
  {
  }

  lemma {:induction false} FindPlainMisses(route: string, screens: seq<Screen>)
    requires forall s :: Route(s) == route ==> HasIdArgument(s)
    ensures FindPlain(route, screens) == None
  {
    if screens != [] {
      FindPlainMisses(route, screens[1..]);
    }
  }

  lemma SegmentAfterPrefix(prefix: string, segment: string)
    requires segment != [] && '/' !in segment
    ensures SegmentAfter(prefix + segment, prefix) == Some(segment)
  {
    var route := prefix + segment;
    assert route[..|prefix|] == prefix && route[|prefix|..] == segment;
  }

  /** A route under one parameterised base never matches another base. */
  lemma SegmentAfterOtherBase(s: Screen, t: Screen, segment: string)
    requires HasIdArgument(s) && HasIdArgument(t) && s != t
    ensures SegmentAfter(Route(s) + "/" + segment, Route(t) + "/") == None
  {
    var route := Route(s) + "/" + segment;
    var prefix := Route(t) + "/";
    if |prefix| < |route| {
      assert route[0] == Route(s)[0] && route[5] == Route(s)[5];
      assert route[..|prefix|][0] == route[0] && route[..|prefix|][5] == route[5];
    }
  }

  /**
   * A parameterised base followed by one segment shows that screen, with
   * the segment decoded by `toIntOrNull()`: null when it is not an Int.
   */
  lemma ResolveSegment(s: Screen, segment: string)
    requires HasIdArgument(s) && segment != [] && '/' !in segment
    ensures Resolve(Route(s) + "/" + segment) == Some(ShowsWithId(s, ParseInt(segment)))
  {
    var route := Route(s) + "/" + segment;
    assert route == (Route(s) + "/") + segment;
    assert route[|Route(s)|] == '/';
    assert route !in LiteralRoutes by {
      NoSlashInRoutes(s);
    }
    assert FindPlain(route, AllScreens) == None by {
      forall t: Screen
        ensures Route(t) != route
      {
        NoSlashInRoutes(t);
      }
      FindPlainMisses(route, AllScreens);
    }
    SegmentAfterPrefix(Route(s) + "/", segment);
    if s != EditCourse {
      SegmentAfterOtherBase(s, EditCourse, segment);
    }
    if s == GroupDetail {
      SegmentAfterOtherBase(s, EditAssignment, segment);
    }
  }

  /** The round trip behind `"${Screen.X.route}/${id}"`: the screen receives the same id. */
  lemma ResolveRouteWithId(s: Screen, id: int)
    requires HasIdArgument(s) && IsInt(id)
    ensures Resolve(RouteWithId(s, id)) == Some(ShowsWithId(s, Some(id)))
  {
    var text := IntText(id);
    assert '/' !in text by {
      if id < 0 { assert text == [text[0]] + text[1..]; }
    }
    ResolveSegment(s, text);
    ParseIntText(id);
  }

  /** A route with a segment after `base` + "/" has that '/' right after the base. */
  lemma SegmentAfterHasSlash(route: string, base: string)
    requires SegmentAfter(route, base + "/").Some?
    ensures |base| < |route| && route[|base|] == '/'
  {
    var prefix := base + "/";
    assert route[..|prefix|][|base|] == prefix[|base|];
  }

  /** A route without a '/' has no segment after any base followed by "/". */
  lemma SegmentAfterNeedsSlash(route: string, base: string)
    requires '/' !in route
    ensures SegmentAfter(route, base + "/") == None
  {
    if SegmentAfter(route, base + "/").Some? {
      SegmentAfterHasSlash(route, base);
    }
  }

  /** A base route without its argument segment matches no destination. */
  lemma ResolveBareBase(s: Screen)
    requires HasIdArgument(s)
    ensures Resolve(Route(s)) == None
  {
    forall t | Route(t) == Route(s)
      ensures HasIdArgument(t)
    {
      RouteInjective(t, s);
    }
    FindPlainMisses(Route(s), AllScreens);
    LiteralRoutesDistinct(s);
    NoSlashInRoutes(s);
    SegmentAfterNeedsSlash(Route(s), Route(EditCourse));
    SegmentAfterNeedsSlash(Route(s), Route(EditAssignment));
    SegmentAfterNeedsSlash(Route(s), Route(GroupDetail));
  }
}
