/** The LTI 1.3 course navigation page: the launch target an LMS course links
    to. The GET handler sends an LTI user either to the PrairieLearn course
    instance already linked to the LMS context, to a "not ready" page, or (for
    an instructor) to a page listing the course instances that could be
    linked; the POST handler records such a link. Both rely on the LTI claims
    stored in the session, which are checked first.

    Database reads are a `Database` snapshot handed in; database writes are
    recorded in the `Response`. The clock is the `nowMs` parameter. */
module Lti13CourseNavigation {
  import opened Wrappers
  import opened Json

  // Claim names of the IMS LTI 1.3 Core specification
  // (sections 5.3.3 deployment id, 5.3.7 roles, 5.4.1 context).
  const RolesClaim := "https://purl.imsglobal.org/spec/lti/claim/roles"
  const ContextClaim := "https://purl.imsglobal.org/spec/lti/claim/context"
  const DeploymentIdClaim := "https://purl.imsglobal.org/spec/lti/claim/deployment_id"

  // Role values that make a user an instructor, and the teaching-assistant sub-role.
  const InstructorRole := "Instructor"
  const MembershipInstructorRole := "http://purl.imsglobal.org/vocab/lis/v2/membership#Instructor"
  const TeachingAssistantRole := "http://purl.imsglobal.org/vocab/lis/v2/membership/Instructor#TeachingAssistant"

  // Session keys.
  const ClaimsKey := "lti13_claims"
  const AuthnInstanceKey := "authn_lti13_instance_id"

  // Query-string flags of the GET handler (only their presence matters).
  const DoneFlag := "done"
  const StudentFlag := "student"
  const NoRedirFlag := "noredir"
  const NoCourseFlag := "nocourse"

  const Forbidden := 403
  const SessionInvalidMessage := "LTI session invalid or timed out, please try logging in again."
  const ContextInvalidMessage := "LTI context claims missing or invalid."
  const PermissionDeniedMessage := "Permission denied"

  /** The claims object of an LTI 1.3 launch. */
  type Claims = map<string, Json>

  /** What a handler throws: an HTTP error made with a status and a message,
      or the TypeError JavaScript raises when `roles.some` is not a function. */
  datatype Fault = HttpError(status: int, message: string) | TypeError

  // ---------------------------------------------------------------------------
  // Role classifier
  // ---------------------------------------------------------------------------

  /** `Array.prototype.some`. */
  function Any<T>(xs: seq<T>, p: T -> bool): (r: bool)
    ensures r <==> exists i :: 0 <= i < |xs| && p(xs[i])
  {
    if xs == [] then false else p(xs[0]) || Any(xs[1..], p)
  }

  /** A role value in the list the classifier accepts as an instructor role. */
  predicate IsInstructorRoleName(role: Json)
  {
    role in [JString(InstructorRole), JString(MembershipInstructorRole)]
  }

  /** `claims[roles] ?? []`: a missing or null roles claim reads as the empty
      list; any other non-array value has no `some` method (None). */
  function RolesOf(claims: Claims): Option<seq<Json>>
  {
    if RolesClaim !in claims then Some([])
    else match claims[RolesClaim]
      case JNull => Some([])
      case JArray(items) => Some(items)
      case _ => None
  }

  /** `is_role_instructor_lti13`: an instructor role is present, and the
      teaching-assistant role is absent unless TAs count as instructors. */
  function IsRoleInstructorLti13(claims: Claims, taIsInstructor: bool): (r: Result<bool, Fault>)
    ensures r.Failure? <==> RolesOf(claims).None?
    ensures r.Failure? ==> r.error == TypeError
    ensures r.Success? ==>
      (r.value <==>
        (JString(InstructorRole) in RolesOf(claims).value
         || JString(MembershipInstructorRole) in RolesOf(claims).value)
        && (taIsInstructor || JString(TeachingAssistantRole) !in RolesOf(claims).value))
  {
    match RolesOf(claims)
    case None => Failure(TypeError)
    case Some(roles) =>
      var roleInstructor := Any(roles, IsInstructorRoleName);
      if !taIsInstructor && JString(TeachingAssistantRole) in roles then Success(false)
      else Success(roleInstructor)
  }

  /** A user whose launch carries no roles claim, or a null one, is never an instructor. */
  lemma MissingRolesIsNotInstructor(claims: Claims, taIsInstructor: bool)
    requires RolesClaim !in claims || claims[RolesClaim] == JNull
    ensures IsRoleInstructorLti13(claims, taIsInstructor) == Success(false)
  {
  }

  /** By default the teaching-assistant role wins over every other role. */
  lemma TeachingAssistantOverrides(claims: Claims, roles: seq<Json>)
    requires RolesOf(claims) == Some(roles)
    requires JString(TeachingAssistantRole) in roles
    ensures IsRoleInstructorLti13(claims, false) == Success(false)
  {
  }

  /** The role list Canvas sends for a teaching assistant: an instructor only
      when teaching assistants count as instructors. */
  lemma CanvasTeachingAssistantRoles()
    ensures var claims := map[RolesClaim := JArray([
              JString("http://purl.imsglobal.org/vocab/lis/v2/institution/person#Instructor"),
              JString("http://purl.imsglobal.org/vocab/lis/v2/institution/person#Student"),
              JString(MembershipInstructorRole),
              JString(TeachingAssistantRole),
              JString("http://purl.imsglobal.org/vocab/lis/v2/system/person#User")])];
            IsRoleInstructorLti13(claims, false) == Success(false)
            && IsRoleInstructorLti13(claims, true) == Success(true)
  {
  }

  // ---------------------------------------------------------------------------
  // Session claims validation
  // ---------------------------------------------------------------------------

  /** `Math.floor(Date.now() / 1000)`: the current NumericDate (section 4.1.4
      of RFC 7519). With a positive divisor Dafny's `/` is floor division. */
  function NowSeconds(nowMs: int): int
  {
    nowMs / 1000
  }

  /** The session has expired once the current second is past `exp`. */
  predicate Expired(nowMs: int, exp: real)
  {
    NowSeconds(nowMs) as real > exp
  }

  /** A session is usable up to, and not including, the first millisecond of
      the second after `exp`. */
  lemma ExpiryDeadline(nowMs: int, exp: real)
    ensures !Expired(nowMs, exp) <==> nowMs < (exp.Floor + 1) * 1000
  {
    var s := NowSeconds(nowMs);
    var f := exp.Floor;
    assert s * 1000 <= nowMs < s * 1000 + 1000;
    assert s as real <= exp <==> s <= f;
    if s <= f {
      assert (s + 1) * 1000 <= (f + 1) * 1000;
    } else {
      assert (f + 1) * 1000 <= s * 1000;
    }
  }

  /** With a whole-second `exp`, every millisecond of second `exp` still
      passes and the next second does not. */
  lemma ExpiryAtSecondBoundary(exp: int)
    ensures !Expired(exp * 1000, exp as real)
    ensures !Expired(exp * 1000 + 999, exp as real)
    ensures Expired((exp + 1) * 1000, exp as real)
  {
    ExpiryDeadline(exp * 1000, exp as real);
    ExpiryDeadline(exp * 1000 + 999, exp as real);
    ExpiryDeadline((exp + 1) * 1000, exp as real);
  }

  /** `LTI13ClaimSchema`: an object whose `exp` is a number (other keys pass through). */
  predicate MatchesExpSchema(v: Json)
  {
    v.JObject? && HasNumber(v.fields, "exp")
  }

  /** The fields `LTI13ClaimContextSchema` demands: a deployment id string and
      a context object with string `id`, `label` and `title`. */
  predicate HasContextClaims(claims: Claims)
  {
    HasString(claims, DeploymentIdClaim)
    && HasObject(claims, ContextClaim)
    && HasString(claims[ContextClaim].fields, "id")
    && HasString(claims[ContextClaim].fields, "label")
    && HasString(claims[ContextClaim].fields, "title")
  }

  /** `LTI13ClaimContextSchema`. */
  predicate MatchesContextSchema(v: Json)
  {
    v.JObject? && HasContextClaims(v.fields)
  }

  /** The first check of `validate_lti13_claims`: claims present, well-shaped
      `exp`, not expired. */
  predicate FreshClaims(entries: map<string, Json>, nowMs: int)
  {
    ClaimsKey in entries
    && MatchesExpSchema(entries[ClaimsKey])
    && !Expired(nowMs, entries[ClaimsKey].fields["exp"].num)
  }

  /** Both checks of `validate_lti13_claims` pass. */
  predicate AcceptedClaims(entries: map<string, Json>, nowMs: int)
  {
    FreshClaims(entries, nowMs) && MatchesContextSchema(entries[ClaimsKey])
  }

  function ClaimsOf(entries: map<string, Json>): Claims
    requires ClaimsKey in entries && entries[ClaimsKey].JObject?
  {
    entries[ClaimsKey].fields
  }

  /** The 403 thrown for claims that do not pass. */
  function Rejection(entries: map<string, Json>, nowMs: int): Fault
    requires !AcceptedClaims(entries, nowMs)
  {
    if !FreshClaims(entries, nowMs) then HttpError(Forbidden, SessionInvalidMessage)
    else HttpError(Forbidden, ContextInvalidMessage)
  }

  /** The session after validation: stale or malformed claims are deleted. */
  function SessionAfterValidation(entries: map<string, Json>, nowMs: int): map<string, Json>
  {
    if FreshClaims(entries, nowMs) then entries else entries - {ClaimsKey}
  }

  /** The request session (an in-place mutable key-value store). */
  class Session {
    var entries: map<string, Json>

    constructor (entries: map<string, Json>)
      ensures this.entries == entries
    {
      this.entries := entries;
    }
  }

  /** `validate_lti13_claims`. */
  method ValidateLti13Claims(session: Session, nowMs: int) returns (r: Result<Claims, Fault>)
    modifies session
    ensures AcceptedClaims(old(session.entries), nowMs) ==> r == Success(ClaimsOf(old(session.entries)))
    ensures !AcceptedClaims(old(session.entries), nowMs) ==>
      r == Failure(Rejection(old(session.entries), nowMs))
    ensures session.entries == SessionAfterValidation(old(session.entries), nowMs)
  {
    if !(ClaimsKey in session.entries && MatchesExpSchema(session.entries[ClaimsKey]))
       || Expired(nowMs, session.entries[ClaimsKey].fields["exp"].num)
    {
      session.entries := session.entries - {ClaimsKey};
      return Failure(HttpError(Forbidden, SessionInvalidMessage));
    }
    if !MatchesContextSchema(session.entries[ClaimsKey]) {
      return Failure(HttpError(Forbidden, ContextInvalidMessage));
    }
    r := Success(session.entries[ClaimsKey].fields);
  }

  /** Validation removes the claims exactly when the first check fails, and
      touches no other session key. */
  lemma ValidationDeletesOnlyStaleClaims(entries: map<string, Json>, nowMs: int)
    ensures ClaimsKey in SessionAfterValidation(entries, nowMs) <==> FreshClaims(entries, nowMs)
    ensures SessionAfterValidation(entries, nowMs) == entries
            <==> ClaimsKey !in entries || FreshClaims(entries, nowMs)
    ensures SessionAfterValidation(entries, nowMs) - {ClaimsKey} == entries - {ClaimsKey}
  {
  }

  /** Once claims are rejected as stale, every later validation rejects the
      session the same way, whatever the time. */
  lemma StaleSessionStaysRejected(entries: map<string, Json>, nowMs: int, laterMs: int)
    requires !FreshClaims(entries, nowMs)
    ensures !AcceptedClaims(SessionAfterValidation(entries, nowMs), laterMs)
    ensures Rejection(SessionAfterValidation(entries, nowMs), laterMs) == HttpError(Forbidden, SessionInvalidMessage)
  {
  }

  /** Claims fresh at some time were fresh at every earlier time. */
  lemma FreshnessIsMonotone(entries: map<string, Json>, earlierMs: int, nowMs: int)
    requires earlierMs <= nowMs
    requires FreshClaims(entries, nowMs)
    ensures FreshClaims(entries, earlierMs)
  {
    var exp := entries[ClaimsKey].fields["exp"].num;
    ExpiryDeadline(nowMs, exp);
    ExpiryDeadline(earlierMs, exp);
  }

  // ---------------------------------------------------------------------------
  // Database snapshot, effects and responses
  // ---------------------------------------------------------------------------

  datatype Course = Course(id: string)

  datatype CourseInstance = CourseInstance(id: string, courseId: string)

  /** The key of a row of `lti13_course_instances`. */
  datatype LinkKey = LinkKey(lti13InstanceId: string, deploymentId: string, contextId: string)

  /** The values the upsert and the insert write into `lti13_course_instances`. */
  datatype LinkRow = LinkRow(
    lti13InstanceId: string,
    courseInstanceId: string,
    deploymentId: string,
    contextId: string,
    contextLabel: string,
    contextTitle: string)

  /** What the handlers read from the database for the authenticated user. */
  datatype Database = Database(
    links: map<LinkKey, string>,                                 // lti13_course_instances -> course_instance_id
    coursesWithEditAccess: seq<Course>,                          // selectCoursesWithEditAccess
    instancesWithStaffAccess: string -> seq<CourseInstance>,     // selectCourseInstancesWithStaffAccess, by course id
    instructorIn: set<string>)                                   // users_is_instructor_in_course_instance

  datatype DbWrite = UpsertLink(row: LinkRow) | InsertLink(row: LinkRow)

  datatype Outcome =
    | DonePage(lti13InstanceId: string)
    | NotReadyPage(courseName: string)
    | InstructorPage(courseName: string, courses: seq<Course>, courseInstances: seq<CourseInstance>)
    | Redirect(location: string)
    | Failed(fault: Fault)

  /** What a handler sends, and the database write it made first, if any. */
  datatype Response = Response(outcome: Outcome, write: Option<DbWrite>)

  /** The context claim (section 5.4.1 of LTI 1.3 Core); `label` is the short name. */
  datatype LtiContext = LtiContext(contextId: string, contextLabel: string, contextTitle: string)

  function ContextOf(claims: Claims): LtiContext
    requires HasContextClaims(claims)
  {
    var fields := claims[ContextClaim].fields;
    LtiContext(fields["id"].str, fields["label"].str, fields["title"].str)
  }

  function DeploymentIdOf(claims: Claims): string
    requires HasContextClaims(claims)
  {
    claims[DeploymentIdClaim].str
  }

  /** `label: title` of the LMS context. */
  function CourseName(claims: Claims): string
    requires HasContextClaims(claims)
  {
    ContextOf(claims).contextLabel + ": " + ContextOf(claims).contextTitle
  }

  /** The course instance linked to this LTI instance, deployment and context. */
  function LinkedCourseInstance(db: Database, lti13InstanceId: string, claims: Claims): Option<string>
    requires HasContextClaims(claims)
  {
    var key := LinkKey(lti13InstanceId, DeploymentIdOf(claims), ContextOf(claims).contextId);
    if key in db.links then Some(db.links[key]) else None
  }

  function LinkRowOf(lti13InstanceId: string, courseInstanceId: string, claims: Claims): LinkRow
    requires HasContextClaims(claims)
  {
    var context := ContextOf(claims);
    LinkRow(lti13InstanceId, courseInstanceId, DeploymentIdOf(claims), context.contextId, context.contextLabel, context.contextTitle)
  }

  const CourseInstancePathPrefix := "/pl/course_instance/"

  /** Where a linked launch is sent: the instructor or the student view. */
  function CourseInstancePath(courseInstanceId: string, instructor: bool): string
  {
    CourseInstancePathPrefix + courseInstanceId + "/" + (if instructor then "instructor/" else "")
  }

  /** Where a successful link is sent: back to this page with the `done` flag. */
  function DoneNavigationPath(lti13InstanceId: string): string
  {
    "/pl/lti13_instance/" + lti13InstanceId + "/course_navigation?done"
  }

  /** Database ids are decimal digit strings. */
  predicate IsNumericId(s: string)
  {
    |s| > 0 && forall i :: 0 <= i < |s| ==> '0' <= s[i] <= '9'
  }

  /** The position of the first '/' in `w` (|w| when there is none). */
  function SlashIndex(w: string): nat
  {
    if w == [] then 0 else if w[0] == '/' then 0 else 1 + SlashIndex(w[1..])
  }

  lemma {:induction false} SlashIndexAfter(a: string, s: string)
    requires forall i :: 0 <= i < |a| ==> a[i] != '/'
    ensures SlashIndex(a + "/" + s) == |a|
  {
    if a != [] {
      assert (a + "/" + s)[0] == a[0];
      assert (a + "/" + s)[1..] == a[1..] + "/" + s;
      SlashIndexAfter(a[1..], s);
    }
  }

  /** The redirect location determines both the course instance and the view. */
  lemma {:induction false} CourseInstancePathInjective(a: string, x: bool, b: string, y: bool)
    requires IsNumericId(a) && IsNumericId(b)
    requires CourseInstancePath(a, x) == CourseInstancePath(b, y)
    ensures a == b && x == y
  {
    var p := CourseInstancePathPrefix;
    var s := if x then "instructor/" else "";
    var t := if y then "instructor/" else "";
    var u := a + "/" + s;
    var v := b + "/" + t;
    assert CourseInstancePath(a, x) == p + u;
    assert CourseInstancePath(b, y) == p + v;
    assert u == (p + u)[|p|..];
    assert v == (p + v)[|p|..];
    SlashIndexAfter(a, s);
    SlashIndexAfter(b, t);
    assert |a| == |b|;
    assert a == u[..|a|];
    assert b == v[..|b|];
    assert s == u[|a| + 1..];
    assert t == v[|b| + 1..];
  }

  /** The course instances of `courses`, list after list, in course order. */
  function ConcatInstances(db: Database, courses: seq<Course>): seq<CourseInstance>
  {
    if courses == [] then []
    else db.instancesWithStaffAccess(courses[0].id) + ConcatInstances(db, courses[1..])
  }

  /** Concatenation follows the order of the courses. */
  lemma {:induction false} ConcatInstancesAppend(db: Database, xs: seq<Course>, ys: seq<Course>)
    ensures ConcatInstances(db, xs + ys) == ConcatInstances(db, xs) + ConcatInstances(db, ys)
  {
    if xs == [] {
      assert xs + ys == ys;
    } else {
      assert (xs + ys)[0] == xs[0];
      assert (xs + ys)[1..] == xs[1..] + ys;
      ConcatInstancesAppend(db, xs[1..], ys);
    }
  }

  /** A course instance is listed exactly when one of the courses has it. */
  lemma {:induction false} ConcatInstancesMembers(db: Database, courses: seq<Course>, ci: CourseInstance)
    ensures ci in ConcatInstances(db, courses)
            <==> exists j :: 0 <= j < |courses| && ci in db.instancesWithStaffAccess(courses[j].id)
  {
    if courses != [] {
      ConcatInstancesMembers(db, courses[1..], ci);
      if ci in ConcatInstances(db, courses[1..]) {
        var j :| 0 <= j < |courses[1..]| && ci in db.instancesWithStaffAccess(courses[1..][j].id);
        assert courses[j + 1] == courses[1..][j];
      }
      if exists j :: 0 <= j < |courses| && ci in db.instancesWithStaffAccess(courses[j].id) {
        var j :| 0 <= j < |courses| && ci in db.instancesWithStaffAccess(courses[j].id);
        if j > 0 {
          assert courses[1..][j - 1] == courses[j];
        }
      }
    }
  }

  // ---------------------------------------------------------------------------
  // GET: where a launch goes
  // ---------------------------------------------------------------------------

  /** The GET decision once the claims are accepted. */
  function NavigationResponse(query: set<string>, lti13InstanceId: string, claims: Claims, db: Database): Response
    requires HasContextClaims(claims)
  {
    match IsRoleInstructorLti13(claims, false)
    case Failure(f) => Response(Failed(f), None)
    case Success(ltiInstructor) =>
      var instructor := ltiInstructor && StudentFlag !in query;
      var linked := LinkedCourseInstance(db, lti13InstanceId, claims);
      if linked.Some? && NoRedirFlag !in query then
        Response(Redirect(CourseInstancePath(linked.value, instructor)),
                 if instructor then Some(UpsertLink(LinkRowOf(lti13InstanceId, linked.value, claims))) else None)
      else if !instructor then
        Response(NotReadyPage(CourseName(claims)), None)
      else
        var courses := if NoCourseFlag in query then [] else db.coursesWithEditAccess;
        Response(InstructorPage(CourseName(claims), courses, ConcatInstances(db, courses)), None)
  }

  /** The GET handler. */
  method HandleGet(query: set<string>, lti13InstanceId: string, session: Session, nowMs: int, db: Database)
    returns (resp: Response)
    modifies session
    ensures DoneFlag in query ==>
      resp == Response(DonePage(lti13InstanceId), None) && session.entries == old(session.entries)
    ensures DoneFlag !in query ==> session.entries == SessionAfterValidation(old(session.entries), nowMs)
    ensures DoneFlag !in query && !AcceptedClaims(old(session.entries), nowMs) ==>
      resp == Response(Failed(Rejection(old(session.entries), nowMs)), None)
    ensures DoneFlag !in query && AcceptedClaims(old(session.entries), nowMs) ==>
      resp == NavigationResponse(query, lti13InstanceId, ClaimsOf(old(session.entries)), db)
  {
    if DoneFlag in query {
      return Response(DonePage(lti13InstanceId), None);
    }

    var validated := ValidateLti13Claims(session, nowMs);
    if validated.Failure? {
      return Response(Failed(validated.error), None);
    }
    var claims := validated.value;
    var courseName := CourseName(claims);
    var role := IsRoleInstructorLti13(claims, false);
    if role.Failure? {
      return Response(Failed(role.error), None);
    }
    var roleInstructor := role.value;
    if StudentFlag in query {
      roleInstructor := false;
    }

    var lci := LinkedCourseInstance(db, lti13InstanceId, claims);
    if lci.Some? && NoRedirFlag !in query {
      var write: Option<DbWrite> := None;
      if roleInstructor {
        write := Some(UpsertLink(LinkRowOf(lti13InstanceId, lci.value, claims)));
      }
      return Response(Redirect(CourseInstancePath(lci.value, roleInstructor)), write);
    }

    if !roleInstructor {
      return Response(NotReadyPage(courseName), None);
    }

    var courses := db.coursesWithEditAccess;
    if NoCourseFlag in query {
      courses := [];
    }
    var courseInstances: seq<CourseInstance> := [];
    for i := 0 to |courses|
      invariant courseInstances == ConcatInstances(db, courses[..i])
      invariant session.entries == SessionAfterValidation(old(session.entries), nowMs)
    {
      var loopCI := db.instancesWithStaffAccess(courses[i].id);
      ConcatInstancesAppend(db, courses[..i], [courses[i]]);
      assert courses[..i + 1] == courses[..i] + [courses[i]];
      courseInstances := courseInstances + loopCI;
    }
    assert courses[..|courses|] == courses;
    resp := Response(InstructorPage(courseName, courses, courseInstances), None);
  }

  /** The `student` flag: no upsert, never the instructor page, and a linked
      launch goes to the student view. */
  lemma StudentFlagForcesStudentView(query: set<string>, lti13InstanceId: string, claims: Claims, db: Database)
    requires HasContextClaims(claims)
    requires StudentFlag in query
    ensures var r := NavigationResponse(query, lti13InstanceId, claims, db);
      r.write == None
      && !r.outcome.InstructorPage?
      && (r.outcome.Redirect? ==>
            r.outcome.location == CourseInstancePath(LinkedCourseInstance(db, lti13InstanceId, claims).value, false))
  {
  }

  /** Only an instructor following an existing link refreshes the link row. */
  lemma UpsertOnlyOnInstructorRedirect(query: set<string>, lti13InstanceId: string, claims: Claims, db: Database)
    requires HasContextClaims(claims)
    ensures var r := NavigationResponse(query, lti13InstanceId, claims, db);
      var linked := LinkedCourseInstance(db, lti13InstanceId, claims);
      (r.write.Some? <==>
         IsRoleInstructorLti13(claims, false) == Success(true) && StudentFlag !in query
         && linked.Some? && NoRedirFlag !in query)
      && (r.write.Some? ==>
            r.write.value == UpsertLink(LinkRowOf(lti13InstanceId, linked.value, claims))
            && r.outcome == Redirect(CourseInstancePath(linked.value, true)))
  {
  }

  /** A redirect happens exactly for a linked launch without `noredir`, and
      goes to the instructor view exactly for an instructor. */
  lemma RedirectFollowsLink(query: set<string>, lti13InstanceId: string, claims: Claims, db: Database)
    requires HasContextClaims(claims)
    requires IsRoleInstructorLti13(claims, false).Success?
    ensures var r := NavigationResponse(query, lti13InstanceId, claims, db);
      var linked := LinkedCourseInstance(db, lti13InstanceId, claims);
      var instructor := IsRoleInstructorLti13(claims, false).value && StudentFlag !in query;
      (r.outcome.Redirect? <==> linked.Some? && NoRedirFlag !in query)
      && (r.outcome.Redirect? ==> r.outcome.location == CourseInstancePath(linked.value, instructor))
  {
  }

  /** A non-instructor whose launch is not redirected is told to come back later. */
  lemma NonInstructorGetsNotReady(query: set<string>, lti13InstanceId: string, claims: Claims, db: Database)
    requires HasContextClaims(claims)
    requires IsRoleInstructorLti13(claims, false).Success?
    requires !(LinkedCourseInstance(db, lti13InstanceId, claims).Some? && NoRedirFlag !in query)
    ensures var r := NavigationResponse(query, lti13InstanceId, claims, db);
      var instructor := IsRoleInstructorLti13(claims, false).value && StudentFlag !in query;
      r.outcome.NotReadyPage? <==> !instructor
  {
  }

  /** The instructor page lists the courses with edit access (none with
      `nocourse`) and exactly the course instances those courses give. */
  lemma {:induction false} InstructorPageLists(query: set<string>, lti13InstanceId: string, claims: Claims, db: Database, ci: CourseInstance)
    requires HasContextClaims(claims)
    requires NavigationResponse(query, lti13InstanceId, claims, db).outcome.InstructorPage?
    ensures var page := NavigationResponse(query, lti13InstanceId, claims, db).outcome;
      page.courses == (if NoCourseFlag in query then [] else db.coursesWithEditAccess)
      && (NoCourseFlag in query ==> page.courseInstances == [])
      && (ci in page.courseInstances
          <==> exists j :: 0 <= j < |page.courses| && ci in db.instancesWithStaffAccess(page.courses[j].id))
  {
    var page := NavigationResponse(query, lti13InstanceId, claims, db).outcome;
    ConcatInstancesMembers(db, page.courses, ci);
  }

  // ---------------------------------------------------------------------------
  // POST: linking a course instance
  // ---------------------------------------------------------------------------

  /** The session belongs to this LTI instance (strict equality with the URL parameter). */
  predicate SessionOfInstance(entries: map<string, Json>, lti13InstanceId: string)
  {
    AuthnInstanceKey in entries && entries[AuthnInstanceKey] == JString(lti13InstanceId)
  }

  /** All the guards of the POST handler pass. */
  predicate LinkAuthorised(entries: map<string, Json>, nowMs: int, lti13InstanceId: string, courseInstanceId: string, db: Database)
  {
    AcceptedClaims(entries, nowMs)
    && SessionOfInstance(entries, lti13InstanceId)
    && IsRoleInstructorLti13(ClaimsOf(entries), false) == Success(true)
    && courseInstanceId in db.instructorIn
  }

  /** The POST handler: link `courseInstanceId` to the LMS context. */
  method HandlePost(lti13InstanceId: string, courseInstanceId: string, session: Session, nowMs: int, db: Database)
    returns (resp: Response)
    modifies session
    ensures session.entries == SessionAfterValidation(old(session.entries), nowMs)
    ensures resp.write.Some? <==> LinkAuthorised(old(session.entries), nowMs, lti13InstanceId, courseInstanceId, db)
    ensures LinkAuthorised(old(session.entries), nowMs, lti13InstanceId, courseInstanceId, db) ==>
      resp == Response(Redirect(DoneNavigationPath(lti13InstanceId)),
                       Some(InsertLink(LinkRowOf(lti13InstanceId, courseInstanceId, ClaimsOf(old(session.entries))))))
    ensures !AcceptedClaims(old(session.entries), nowMs) ==>
      resp.outcome == Failed(Rejection(old(session.entries), nowMs))
    ensures AcceptedClaims(old(session.entries), nowMs) && !SessionOfInstance(old(session.entries), lti13InstanceId) ==>
      resp.outcome == Failed(HttpError(Forbidden, PermissionDeniedMessage))
    ensures AcceptedClaims(old(session.entries), nowMs) && SessionOfInstance(old(session.entries), lti13InstanceId) ==>
      var role := IsRoleInstructorLti13(ClaimsOf(old(session.entries)), false);
      (role.Failure? ==> resp.outcome == Failed(TypeError))
      && (role.Success? && !LinkAuthorised(old(session.entries), nowMs, lti13InstanceId, courseInstanceId, db) ==>
            resp.outcome == Failed(HttpError(Forbidden, PermissionDeniedMessage)))
  {
    var validated := ValidateLti13Claims(session, nowMs);
    if validated.Failure? {
      return Response(Failed(validated.error), None);
    }
    var claims := validated.value;

    if !(AuthnInstanceKey in session.entries && session.entries[AuthnInstanceKey] == JString(lti13InstanceId)) {
      return Response(Failed(HttpError(Forbidden, PermissionDeniedMessage)), None);
    }

    var ltiRole := IsRoleInstructorLti13(claims, false);
    if ltiRole.Failure? {
      return Response(Failed(ltiRole.error), None);
    }
    var ciRoleInstructor := courseInstanceId in db.instructorIn;
    if !ltiRole.value || !ciRoleInstructor {
      return Response(Failed(HttpError(Forbidden, PermissionDeniedMessage)), None);
    }

    var write := InsertLink(LinkRowOf(lti13InstanceId, courseInstanceId, claims));
    resp := Response(Redirect(DoneNavigationPath(lti13InstanceId)), Some(write));
  }
}
