# LTI 1.3 course navigation, modelled in Dafny

This project models PrairieLearn's LTI 1.3 course navigation page. This is the
page an LMS course (Canvas, for example) opens when a user follows
PrairieLearn's course-navigation link. It has four parts:

- **Role classifier** (`is_role_instructor_lti13`). It reads the roles claim
  (section 5.3.7 of the IMS LTI 1.3 Core specification). The user counts as an
  instructor when the claim holds `Instructor` or the LIS membership role
  `membership#Instructor`. The teaching-assistant sub-role overrides this
  unless teaching assistants count as instructors.
- **Session-claims validator** (`validate_lti13_claims`). It checks the LTI
  claims kept in the session in two steps:
  - Step one checks that the claims are an object with a numeric `exp`, and
    that the current second (section 4.1.4 of RFC 7519) is not past `exp`.
    If this fails, the claims are deleted from the session and a 403 "session
    invalid or timed out" is thrown.
  - Step two checks for the deployment id (section 5.3.3) and for the context
    `id`, `label` and `title` (section 5.4.1). If this fails, a different 403
    is thrown and the session is left alone.
- **GET handler.** It chooses one of four results:
  - the done page (`done` flag);
  - a redirect to the linked course instance, at its instructor or student
    view (an instructor redirect also refreshes the link row);
  - the "not ready" page for non-instructors;
  - the instructor's linking page. This page lists the courses the user can
    edit, and every course instance of those courses the user has staff
    access to, concatenated course by course.

  The `student` flag forces the non-instructor path. The `noredir` flag
  skips the redirect. The `nocourse` flag empties the course list.
- **POST handler.** It inserts the link row and redirects back to
  `.../course_navigation?done`. It does this only when the claims are valid,
  the URL's LTI instance is the session's authenticated instance, the LTI role
  is instructor, and the user is an instructor of the chosen course instance.
  In every other case the result is a 403.

Files:
- `wrappers.dfy`: `Option` and `Result`.
- `json.dfy`: JSON values, which are what the claims and the session hold.
- `lti13_course_navigation.dfy`: the model.

Design choices:
- The session is a `Session` class whose `entries` map changes in place.
  Validation deletes the claims key from it.
- What the handlers read from the database is a `Database` snapshot input:
  - the `lti13_course_instances` table, as a map from (LTI instance,
    deployment, context) to a course instance;
  - the courses with edit access;
  - the course instances with staff access, per course;
  - the course instances the user is an instructor of.
- A database write (the GET upsert, the POST insert) is recorded in the
  `Response`.
- Thrown errors are `Failed` outcomes.
- The clock is a parameter, `nowMs`. It stands for `Date.now()`.

## Model

| member | source | states |
|---|---|---|
| `Lti13CourseNavigation.Any` | apps/prairielearn/src/ee/pages/lti13CourseNavigation/lti13CourseNavigation.ts:185-187 | `roles.some(p)` holds exactly when some element of the list satisfies `p` |
| `Lti13CourseNavigation.IsRoleInstructorLti13` | apps/prairielearn/src/ee/pages/lti13CourseNavigation/lti13CourseNavigation.ts:166-198 | throws (TypeError) exactly when the roles claim is present but neither null nor an array. Otherwise it returns true exactly when the roles hold `Instructor` or `membership#Instructor`, and either TAs count as instructors or the TeachingAssistant role is absent |
| `Lti13CourseNavigation.MissingRolesIsNotInstructor` | apps/prairielearn/src/ee/pages/lti13CourseNavigation/lti13CourseNavigation.ts:183-187 | a missing or null roles claim reads as `[]`, so the user is not an instructor |
| `Lti13CourseNavigation.TeachingAssistantOverrides` | apps/prairielearn/src/ee/pages/lti13CourseNavigation/lti13CourseNavigation.ts:189-194 | with the default `ta_is_instructor = false`, the TeachingAssistant role gives false whatever other roles are present |
| `Lti13CourseNavigation.CanvasTeachingAssistantRoles` | apps/prairielearn/src/ee/pages/lti13CourseNavigation/lti13CourseNavigation.ts:169-194 | the Canvas TA role list in the source comment is not an instructor by default, and is one when TAs count as instructors |
| `Lti13CourseNavigation.ExpiryDeadline` | apps/prairielearn/src/ee/pages/lti13CourseNavigation/lti13CourseNavigation.ts:217-219 | with `floor(now_ms / 1000) > exp` as the expiry test, the session passes exactly while `now_ms < (floor(exp) + 1) * 1000` |
| `Lti13CourseNavigation.ExpiryAtSecondBoundary` | apps/prairielearn/src/ee/pages/lti13CourseNavigation/lti13CourseNavigation.ts:217-219 | with a whole-second `exp`, the first and the last millisecond of second `exp` pass (`now_s == exp` is not expired), and the next second is expired |
| `Lti13CourseNavigation.ValidateLti13Claims` | apps/prairielearn/src/ee/pages/lti13CourseNavigation/lti13CourseNavigation.ts:213-234 | returns the session's claims unchanged when both checks pass. Missing, non-object or malformed-`exp` or expired claims give the "session invalid or timed out" 403 and are deleted from the session. Otherwise a missing deployment id or context field gives the "context claims missing or invalid" 403, and the session is unchanged |
| `Lti13CourseNavigation.ValidationDeletesOnlyStaleClaims` | apps/prairielearn/src/ee/pages/lti13CourseNavigation/lti13CourseNavigation.ts:214-229 | after validation the claims key is present exactly when the first check passed. The session changes exactly when claims were present and failed that check. No other session key changes |
| `Lti13CourseNavigation.StaleSessionStaysRejected` | apps/prairielearn/src/ee/pages/lti13CourseNavigation/lti13CourseNavigation.ts:220-223 | once stale claims are deleted, every later validation, at any time, fails with the "session invalid or timed out" 403 |
| `Lti13CourseNavigation.FreshnessIsMonotone` | apps/prairielearn/src/ee/pages/lti13CourseNavigation/lti13CourseNavigation.ts:215-219 | claims that pass the expiry check at some time also pass it at every earlier time |
| `Lti13CourseNavigation.CourseInstancePathInjective` | apps/prairielearn/src/ee/pages/lti13CourseNavigation/lti13CourseNavigation.ts:69-71 | for numeric ids, the redirect location `/pl/course_instance/<id>/[instructor/]` determines both the course instance and whether the instructor view was chosen |
| `Lti13CourseNavigation.ConcatInstancesAppend` | apps/prairielearn/src/ee/pages/lti13CourseNavigation/lti13CourseNavigation.ts:98-111 | the accumulated course-instance list of a course list split in two is the list of the first part followed by the list of the second (the order follows the courses) |
| `Lti13CourseNavigation.ConcatInstancesMembers` | apps/prairielearn/src/ee/pages/lti13CourseNavigation/lti13CourseNavigation.ts:101-111 | a course instance is in the accumulated list exactly when one of the courses' staff-access lists holds it |
| `Lti13CourseNavigation.HandleGet` | apps/prairielearn/src/ee/pages/lti13CourseNavigation/lti13CourseNavigation.ts:20-122 | the `done` flag gives the done page before any claims validation and leaves the session unchanged. Otherwise the session is the validated one, and rejected claims give validation's 403. Accepted claims give the GET decision, with the instructor page's list built by the loop as the in-order concatenation of the per-course lists |
| `Lti13CourseNavigation.StudentFlagForcesStudentView` | apps/prairielearn/src/ee/pages/lti13CourseNavigation/lti13CourseNavigation.ts:38-73 | with the `student` flag there is no upsert and no instructor page, and a redirect goes to the student view |
| `Lti13CourseNavigation.UpsertOnlyOnInstructorRedirect` | apps/prairielearn/src/ee/pages/lti13CourseNavigation/lti13CourseNavigation.ts:53-73 | a write happens exactly when the user is an LTI instructor, `student` is absent, a link exists and `noredir` is absent. That write is the upsert of the link row with the context's current fields, and the response is the redirect to the instructor view |
| `Lti13CourseNavigation.RedirectFollowsLink` | apps/prairielearn/src/ee/pages/lti13CourseNavigation/lti13CourseNavigation.ts:53-73 | the response is a redirect exactly when a link exists and `noredir` is absent. It goes to `/pl/course_instance/<id>/`, with `instructor/` appended exactly when the user is an instructor |
| `Lti13CourseNavigation.NonInstructorGetsNotReady` | apps/prairielearn/src/ee/pages/lti13CourseNavigation/lti13CourseNavigation.ts:75-84 | when no link is followed, the not-ready page is shown exactly to non-instructors |
| `Lti13CourseNavigation.InstructorPageLists` | apps/prairielearn/src/ee/pages/lti13CourseNavigation/lti13CourseNavigation.ts:88-120 | the instructor page lists the courses with edit access. With `nocourse` it lists no courses and no course instances. A course instance is listed exactly when one of those courses gives it |
| `Lti13CourseNavigation.HandlePost` | apps/prairielearn/src/ee/pages/lti13CourseNavigation/lti13CourseNavigation.ts:124-162 | the insert happens exactly when the claims are accepted, the session's `authn_lti13_instance_id` strictly equals the URL's instance id, the LTI role is instructor and the user is an instructor of the course instance. The response is then the redirect to `.../course_navigation?done`. Otherwise there is no write, and the response is validation's 403, the "Permission denied" 403, or the roles TypeError, in the source's order |

## Left out

- `apps/prairielearn/src/api/v1/endpoints/courseInstanceAssessmentInstances/index.js` is not part of this model. Its routes pass SQL results to HTTP responses, and the only decision in them is "empty result gives 404".
- The physics question generator under `templateCourses/` is not part of this model.
- Database queries are not modelled. Their results are the `Database` snapshot. The snapshot already holds the authenticated user's id and administrator flag, since the queries depend on them. The link table is a map, so the model assumes (lti13 instance, deployment, context) picks at most one row, as `queryOptionalRow` requires.
- HTML rendering is not modelled. The page outcomes carry the data handed to the templates.
- Express routing, `asyncHandler`, and the mechanics of `res.send` and `res.redirect` are not modelled. A thrown error is a `Failed` outcome. What Express's error handler then sends is not modelled.
- `console.log` of the claims is I/O and is left out.
- `Date.now()` is the `nowMs` parameter.
- JSON numbers are exact reals. Floating-point rounding of `Date.now() / 1000` is not modelled; it cannot matter for millisecond times below 2^53.
- zod schemas are modelled as checks that required fields are present and have the right type. Extra keys always pass. The parsed copy that zod returns is unused by the source, so it is not modelled.
- HandlePost: the request body's `ci_id` is taken as a string. A missing or non-string body field is not modelled.
- The async/await sequencing carries no concurrency, so it is left out. Each handler is one sequential step.
