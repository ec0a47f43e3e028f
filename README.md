# eJournal client and LTI core in Dafny

This project models the core of eJournal. eJournal is a learning-journal web application with a Vue front end and a Django back end. The model covers:

- **Colour helpers** (`colors.js`). `getColors` cycles a three-colour border palette over a list, and `pickColor` picks the colour for a one-based id. Both keep JavaScript's quirks for negative numbers: a truncating `%`, a `slice` with a negative end, and `undefined` for a negative array index.
- **Route table and navigation guard** (`router/index.js`). The guard asks the server for permissions: course-scoped when the target carries a truthy `cID`, site-wide (`-1`) otherwise. It stores them on the shared application object and calls `next`. The router is a class whose `permissions` field and event trace the guard updates.
- **REST clients** (`api/course.js`, `api/user.js`, `api/participation.js`). Each method is modelled as the request it hands to the transport (entry point, path, argument object) plus the property path it reads from the response. A response with a value planted at that path resolves to that value. The model keeps JavaScript's property-read errors on `undefined`.
- **Django JSON response helpers** (`views/responses.py`). The body is the ordered dict `{'result': message, 'description': description, **payload}`. The error helpers keep their default descriptions. `keyerror` renders the Python tuple of the missing keys.
- **LTI entry views** (`views/extra.py`):
  - `get_lti_params_from_jwt` decides which entry state the client shows: new course, new assignment, finished as teacher or student, or not found. It also chooses which launch parameters go into the payload.
  - `lti_launch` builds the names and values of the redirect query.

  The database lookups, the JWT step and the configuration file are inputs.

JavaScript and JSON values share one datatype, `Json.Value`. Objects and dicts are ordered association lists, because both languages keep insertion order for these string keys. A missing key raised by a Python view is an error result (`Lti.Raised`), not a precondition.

Modules, in dependency order:

| module | file |
|---|---|
| `Wrappers` | `wrappers.dfy` |
| `Text` | `text.dfy` |
| `Json` | `json.dfy` |
| `Colors` | `colors.dfy` |
| `Http` | `http.dfy` |
| `Course` | `course.dfy` |
| `User` | `user.dfy` |
| `Participation` | `participation.dfy` |
| `Responses` | `responses.dfy` |
| `Routing` | `routing.dfy` |
| `Lti` | `lti.dfy` |

## Model

| member | source | states |
|---|---|---|
| Colors.GetColors | src/vue/src/javascripts/colors.js:2-13 | The loop repeats the palette `floor(n/3)` times and appends a slice with the remainder as its end. Only for `n >= 0` is the length `n`. Every element `i` is `Palette[i % 3]`, the same colour that `pickColor(i+1)` gives. |
| Colors.ColorCount | src/vue/src/javascripts/colors.js:5-12 | The number of colours `getColors` returns is the count itself when the count is not negative. For a negative count it is below the palette size. |
| Colors.JsRem | src/vue/src/javascripts/colors.js:6 | JavaScript's `%` with a positive divisor. It is the mathematical remainder for a non-negative dividend, and lies in `(-b, 0]` for a negative one. |
| Colors.SliceEnd | src/vue/src/javascripts/colors.js:12 | The end index `slice(0, end)` uses is never beyond the array. The body follows ECMAScript's clamp of a negative end. |
| Colors.PickColor | src/vue/src/javascripts/colors.js:15-18 | Every defined result is a palette colour, and every id from 1 on has one. |
| Colors.PickColorFromOne | src/vue/src/javascripts/colors.js:15-18 | For ids from 1 on, the colour is the palette entry at `(id-1) mod 3`. |
| Colors.PickColorPeriodic | src/vue/src/javascripts/colors.js:17 | From id 1 on, the colour repeats with period 3. |
| Colors.PickColorBelowOne | src/vue/src/javascripts/colors.js:17 | For ids at or below 0, JavaScript's truncating `%` gives a negative index, which reads `undefined`. The exception is an id for which `id - 1` is a multiple of 3, where `-0` reads the first colour. |
| Colors.PickColorMatchesPosition | src/vue/src/javascripts/colors.js:15-18 | `pickColor(i+1)` is the colour at position `i` of the cycle. |
| Http.UnwrapPlant | src/vue/src/api/course.js:7 | Unwrapping `response.a.b` reads back the value planted at `a.b`, for any property path. |
| Http.ResolvesPlanted | src/vue/src/api/course.js:5-8 | Every client call resolves to the value at its own unwrap path. |
| Http.UnwrapMissingOuter | src/vue/src/api/course.js:7 | When the outer property of a two-step path is absent, it reads as `undefined`, and the next read raises a TypeError. |
| Http.Property | src/vue/src/api/course.js:7 | A JavaScript property read (`x.k`). It raises a TypeError on `undefined` and `null`. On an object it gives the field's value or `undefined`, and on any other value `undefined`. UnwrapPlant and UnwrapMissingOuter state its properties. |
| Http.Unwrap | src/vue/src/api/course.js:7 | A chain of property reads that stops at the first error. UnwrapPlant and UnwrapMissingOuter state its properties. |
| Http.Resolve | src/vue/src/api/course.js:5-8 | The value a client's `.then` callback returns for a response. ResolvesPlanted states its property. |
| Course.GetCourseData | src/vue/src/api/course.js:5-8 | Authenticated GET with no body. Its path is `/get_course_data/`, then the course id as a JavaScript string, then `/`. It resolves to `data.course`. |
| Course.GetUserTeacherCourses | src/vue/src/api/course.js:11-14 | GET `/get_user_teacher_courses/`, resolving to `data.courses`. |
| Course.GetUserCourses | src/vue/src/api/course.js:20-23 | GET `/get_user_courses/`, resolving to `data.courses`. |
| Course.GetUsers | src/vue/src/api/course.js:25-28 | GET a path carrying the course id. It resolves to the whole `data`, for every response. |
| Course.GetUnenrolledUsers | src/vue/src/api/course.js:30-33 | GET a path carrying the course id, resolving to `data.users`. |
| Course.GetUpcomingCourseDeadlines | src/vue/src/api/course.js:36-39 | GET a path carrying the course id, resolving to `data.deadlines`. |
| Course.DefaultNull | src/vue/src/api/course.js:42 | The `= null` default turns `undefined` into null and keeps every other value. |
| Course.CreateNewCourse | src/vue/src/api/course.js:42-49 | POST `/create_new_course/` with exactly `name`, `abbr`, `startdate` and `lti_id`, in that order. `lti_id` has the null default applied. It resolves to `data`. |
| Course.UpdateCourse | src/vue/src/api/course.js:52-59 | POST `/update_course/` with `cID`, `name`, `abbr` and `startDate`, resolving to `data.course`. |
| Course.ConnectCourseLti | src/vue/src/api/course.js:62-67 | POST `/connect_course_lti/` with `cID` and `lti_id`, resolving to `data.course`. |
| Course.UpdateCourseWithStudentID | src/vue/src/api/course.js:70-75 | POST `/update_course_with_studentID/` with `uID` and `cID`, resolving to `data.result`. |
| Course.DeleteCourse | src/vue/src/api/course.js:78-82 | POST `/delete_course/` with `cID`. It resolves to the top-level `message`, for every response. |
| Course.UpdateUserRoleCourse | src/vue/src/api/course.js:85-91 | POST `/update_user_role_course/` with `uID`, `cID` and `role`, resolving to `data.result`. |
| Course.DeleteUserFromCourse | src/vue/src/api/course.js:94-99 | POST `/delete_user_from_course/` with `uID` and `cID`, resolving to `data.result`. |
| Course.CourseIdRoundTrip | src/vue/src/api/course.js:6 | A natural course id leaves the client as its decimal digits, and parsing them gives the same id back. |
| Course.CourseDataPathsDistinct | src/vue/src/api/course.js:6 | Different numeric course ids give different paths. |
| Course.StartDateKeysDiffer | src/vue/src/api/course.js:42-59 | Create sends `startdate` and update sends `startDate`. Neither request carries the other's key. |
| Course.DeleteCourseIgnoresData | src/vue/src/api/course.js:81 | `delete_course` reads `message` from the top level. A message that sits only under `data` resolves to `undefined`. |
| Course.GetUsersReturnsWholeData | src/vue/src/api/course.js:25-39 | `get_users` returns all of `data`, while its siblings return one field of it. |
| Course.CreateSendsLtiId | src/vue/src/api/course.js:42-47 | `lti_id` is always sent and never as `undefined`. When it was not given it is null. |
| Course.ConnectRenamesLtiId | src/vue/src/api/course.js:62-66 | The `ltiID` argument is sent under the key `lti_id`. |
| User.GetOwnUserData | src/vue/src/api/user.js:5-8 | GET `/get_own_user_data/`, resolving to `data.user`. |
| User.UpdateUserData | src/vue/src/api/user.js:11-13 | POST `{username}` to `/update_user_data/`. It resolves to the raw response. |
| User.UpdateProfilePicture | src/vue/src/api/user.js:16-18 | File-POST `{picture}` to the same path. It resolves to the raw response. |
| User.UpdateGradeNotification | src/vue/src/api/user.js:25-27 | POST `{new_value}`, resolving to `data.new_value`. |
| User.UpdateCommentNotification | src/vue/src/api/user.js:34-36 | POST `{new_value}`, resolving to `data.new_value`. |
| User.UserDataEndpointShared | src/vue/src/api/user.js:11-18 | The username update and the picture upload share one path. Only the transport entry and the body key differ. |
| User.NotificationSwitchesAlike | src/vue/src/api/user.js:25-36 | The two notification switches use the same transport entry, send the same `{new_value}` argument and read the same `data.new_value`. Only their paths differ. |
| Participation.GetEnrolled | src/vue/src/api/participation.js:5-8 | `get('participations', {course_id})`, resolving to `data.participants`. |
| Participation.Create | src/vue/src/api/participation.js:10-13 | The body is passed through unchanged. It resolves to `data.participant`. |
| Participation.Update | src/vue/src/api/participation.js:15-18 | The path is `participations/` followed by the id as a string. It resolves to `data.participant`. |
| Participation.Delete | src/vue/src/api/participation.js:20-23 | Deletes `participations/<cID>`, passing `{user_id}` as `auth.delete`'s second argument, the query. It resolves to `data`, for every response. |
| Participation.GetUnenrolled | src/vue/src/api/participation.js:25-28 | GET `participations/unenrolled`, resolving to `data.participants`. |
| Participation.UnenrolledPathCollides | src/vue/src/api/participation.js:15-28 | An update or delete for the id `"unenrolled"` addresses the unenrolled listing's path. |
| Participation.ParticipationIdRoundTrip | src/vue/src/api/participation.js:16 | A natural id reads back from the path. |
| Text.ParseNatDecimal | src/django/VLE/views/get.py:292 | Parsing the decimal digits of a natural number gives that number back. The parser agrees with Python's `int()`, as `get_course_permissions` applies it to `cID`, on unsigned ASCII decimal digit strings only. |
| Text.NatToDecimalInjective | src/vue/src/api/course.js:6 | Distinct natural numbers have distinct decimal digits. |
| Text.IntToDecimalInjective | src/vue/src/api/course.js:6 | Distinct integers have distinct JavaScript string forms. |
| Text.IntToDecimal | src/vue/src/api/course.js:6 | The JavaScript string of an integer is never empty. It starts with `-` exactly for negative integers. |
| Text.PyRepr | src/django/VLE/views/responses.py:102 | Python's `repr` of a string opens and closes with the same quote. |
| Text.PyTupleRepr | src/django/VLE/views/responses.py:102-104 | `str.format` of a tuple of strings: `()` for none, `('a',)` for one, and the reprs joined by `, ` inside parentheses otherwise. PyTupleReprNamesEach states its property. |
| Text.PyTupleReprNamesEach | src/django/VLE/views/responses.py:99-104 | The Python repr of a tuple of key names contains the repr of each name. |
| Json.MergeKeys | src/django/VLE/views/responses.py:96 | `{**d, **p}` keeps `d`'s keys first and in order. Its key set is the union of both key sets. |
| Json.MergeOverrides | src/django/VLE/views/responses.py:96 | A key of `p` maps to `p`'s value after the merge. |
| Json.MergeKeeps | src/django/VLE/views/responses.py:96 | A key not in `p` keeps `d`'s value. |
| Json.Merge | src/django/VLE/views/responses.py:96 | `{**d, **p}`: the payload's entries are assigned into `d`, one at a time and in order. MergeKeys, MergeOverrides and MergeKeeps state its properties. |
| Json.Set | src/django/VLE/views/extra.py:99 | Assigning `d[k] = v`. An existing key is overwritten in place, and a new key is appended. |
| Json.SetUnique | src/django/VLE/views/extra.py:99 | Assigning `d[k] = v` into a dict without repeated keys leaves none repeated. |
| Json.MergeUnique | src/django/VLE/views/responses.py:96 | `{**d, **p}` of a dict without repeated keys has no repeated keys. |
| Json.Truthy | src/vue/src/router/index.js:99 | JavaScript truthiness. `undefined`, `null`, `false`, `0` and the empty string are falsy, and every other value is truthy. SiteWideScope uses it. |
| Json.JsString | src/vue/src/api/course.js:6 | The string a value becomes when it is concatenated to a string. Numbers give their decimal digits. CourseIdRoundTrip and CourseDataPathsDistinct state its properties on numbers. |
| Responses.Response | src/django/VLE/views/responses.py:87-96 | The status is passed through. `result` and `description` come first. The keys are these two plus the payload's. Payload keys override the defaults. No key appears twice in the body. |
| Responses.Success | src/django/VLE/views/responses.py:15-21 | Status 200. The body's keys are `result`, `description` and the payload's. It carries the message and an empty description unless the payload overrides them. Every payload key carries the payload's value. The message defaults to "success" and the payload to the empty dict. |
| Responses.Created | src/django/VLE/views/responses.py:24-30 | Status 201. The body's keys are `result`, `description` and the payload's. It carries the message and an empty description unless the payload overrides them. Every payload key carries the payload's value. The message defaults to "success" and the payload to the empty dict. |
| Responses.ErrorResponse | src/django/VLE/views/responses.py:87-96 | Without a payload the body is exactly `result` and `description`. |
| Responses.NoContent | src/django/VLE/views/responses.py:33-39 | Status 204. The body is exactly `result` "No Content" and `description` with the given text. Without an argument the description is the Python default. |
| Responses.BadRequest | src/django/VLE/views/responses.py:42-48 | Status 400. The body is exactly `result` "Bad Request" and `description` with the given text. Without an argument the description is the Python default. |
| Responses.Unauthorized | src/django/VLE/views/responses.py:51-57 | Status 401. The body is exactly `result` "Authentication Error" and `description` with the given text. Without an argument the description is the Python default. |
| Responses.Forbidden | src/django/VLE/views/responses.py:60-66 | Status 403. The body is exactly `result` "Forbidden" and `description` with the given text. Without an argument the description is the Python default. |
| Responses.NotFound | src/django/VLE/views/responses.py:69-75 | Status 404. The body is exactly `result` "Not Found" and `description` with " not found." appended to the given text. Without an argument the description is the Python default. |
| Responses.InternalServerError | src/django/VLE/views/responses.py:78-84 | Status 500. The body is exactly `result` "500 Internal Server Error" and `description` with the given text. Without an argument the description is the Python default. |
| Responses.KeyError | src/django/VLE/views/responses.py:99-104 | Status 400 with exactly `result` "Bad Request" and `description`. The description starts with "Field " exactly when one key is missing and with "Fields " exactly otherwise, and it contains the Python repr of every missing key. |
| Responses.KeyErrorDescription | src/django/VLE/views/responses.py:101-104 | The singular text for one key and the plural text otherwise. KeyErrorWording and KeyErrorNamesKeys state its properties. |
| Responses.KeyErrorWording | src/django/VLE/views/responses.py:101-104 | The description starts with "Field " when exactly one key is missing and with "Fields " otherwise (both directions). |
| Responses.KeyErrorNamesKeys | src/django/VLE/views/responses.py:101-104 | The description names every missing key, in Python repr. |
| Responses.KeyErrorNamesKey | src/django/VLE/views/responses.py:101-104 | The description names one given missing key, in Python repr. |
| Responses.DefaultNotFoundDescription | src/django/VLE/views/responses.py:69-75 | The default not-found text ends in "was not found. not found.". |
| Responses.DefaultSuccess | src/django/VLE/views/responses.py:15-21 | `success()` answers 200 with exactly `result` "success" and an empty description. |
| Responses.DefaultCreated | src/django/VLE/views/responses.py:24-30 | `created()` answers 201 with exactly `result` "success" and an empty description. |
| Responses.DefaultNoContentDescription | src/django/VLE/views/responses.py:33-39 | `no_content()` describes itself as "Request succeeded.". |
| Responses.DefaultBadRequestDescription | src/django/VLE/views/responses.py:42-48 | `bad_request()` describes itself as "Your browser performed a bad request.". |
| Responses.DefaultUnauthorizedDescription | src/django/VLE/views/responses.py:51-57 | `unauthorized()` describes itself as "You are not authenticated.". |
| Responses.DefaultForbiddenDescription | src/django/VLE/views/responses.py:60-66 | `forbidden()` describes itself as "You have no access to this page", without a full stop. |
| Responses.DefaultInternalErrorDescription | src/django/VLE/views/responses.py:78-84 | `internal_server_error()` describes itself as "Oops! The server experienced internal hiccups.". |
| Routing.MatchBindsParams | src/vue/src/router/index.js:23-90 | A successful match binds exactly the pattern's parameters. |
| Routing.MatchCoursePrefix | src/vue/src/router/index.js:56 | Under `/Home/Course/:cID`, `cID` is bound to the third URL segment, which is not empty. |
| Routing.Match | src/vue/src/router/index.js:23-90 | Exact segment matching of a URL against a route's path. MatchBindsParams and MatchCoursePrefix state its properties. |
| Routing.Scope | src/vue/src/router/index.js:98-105 | The scope is `-1` or the target's truthy `cID`. |
| Routing.SiteWideScope | src/vue/src/router/index.js:98-105 | The scope is `-1` exactly when `cID` is absent or falsy, or is itself `-1`. |
| Routing.CourseRoutesCarryCID | src/vue/src/router/index.js:55-89 | Exactly the seven course routes have a `cID` parameter. They share the course prefix, and they are exactly the routes with `props: true`. |
| Routing.ScopeOfMatchedRoute | src/vue/src/router/index.js:23-105 | Following a URL that matches a course route asks for that course's permissions. Every other route asks for site-wide permissions. |
| Routing.GuardEvents | src/vue/src/router/index.js:107-120 | The steps of the guard as written, in order: fetch, `next()`, and then either the write and `next()` or `next(callback)`. The AsWritten lemmas state its properties. |
| Routing.AwaitedEvents | src/vue/src/router/index.js:107-118 | The steps of the corrected guard: fetch, and then either the write and `next()` or `next(location)` to the error page. AwaitedAdmitsOnlyAfterWrite states its properties. |
| Routing.AsWrittenAdmitsBeforeWrite | src/vue/src/router/index.js:107-120 | The guard as written calls `next()` before any permissions are written, for every outcome. |
| Routing.AsWrittenAdmissionIgnoresOutcome | src/vue/src/router/index.js:107-120 | The guard's first two steps are the same whether the request succeeds or fails. |
| Routing.AsWrittenCallsNextTwice | src/vue/src/router/index.js:107-120 | The guard as written calls `next` twice per navigation. |
| Routing.AsWrittenFailureAdmits | src/vue/src/router/index.js:112-117 | On failure every `next` call of the guard as written admits the navigation. `next(callback)` in a global guard counts as admitting, because vue-router ignores the callback there. The error redirect never happens. |
| Routing.AwaitedAdmitsOnlyAfterWrite | src/vue/src/router/index.js:107-118 | The corrected guard admits only after the write. It admits nothing exactly on failure, and redirects to the error page exactly on failure, with `next(location)`. It calls `next` exactly once. |
| Routing.ErrorRedirectIsSiteWide | src/vue/src/router/index.js:47-50 | The corrected guard's failure redirect names the `/Error` route, which is the only route with that name, so it asks for site-wide permissions. |
| Routing.Router.constructor | src/vue/src/router/index.js:22 | The router starts with the given permissions and an empty trace. |
| Routing.Router.BeforeEach | src/vue/src/router/index.js:93-121 | Success replaces `permissions` by the resolved value, and failure leaves it alone. The trace grows by the guard's events in source order, `next()` and the failure branch's `next(callback)` included. |
| Routing.Router.BeforeEachAwaited | src/vue/src/router/index.js:93-118 | The same state change, with the events of the corrected guard: it waits for the request and redirects with `next(location)` on failure. |
| Lti.Field | src/django/VLE/views/extra.py:93 | `d[k]` succeeds exactly when the key is present, and otherwise raises KeyError. |
| Lti.RoleNamed | src/django/VLE/views/extra.py:92-93 | Inverting the role map succeeds exactly when some configured role has that LTI name. The result is the last such role. |
| Lti.GetLtiParamsFromJwt | src/django/VLE/views/extra.py:80-138 | The view answers with status 200, 401 or 404 when it does not raise. It answers 401 exactly when the user is not authenticated. Dispatch, EntryStateDecision and LaunchErrors state the rest. |
| Lti.NewCoursePayload | src/django/VLE/views/extra.py:97-104 | The new-course payload. NewCoursePayloadShape and NewCourseMissingField state its properties. |
| Lti.NewAssignmentPayload | src/django/VLE/views/extra.py:116-120 | The new-assignment payload. NewAssignmentPayloadShape and NewAssignmentMissingField state its properties. |
| Lti.FinishPayload | src/django/VLE/views/extra.py:130-137 | The finish payload. FinishPayloadShape and FinishCarriesIds state its properties. |
| Lti.WithPoints | src/django/VLE/views/extra.py:106-107 | Adds the Canvas points field when the launch has it. CreationResponse states its properties. |
| Lti.ParamsResponse | src/django/VLE/views/extra.py:109 | `success(payload={'params': payload})`. CreationResponse and FinishCarriesIds state its properties. |
| Lti.ReadAll | src/django/VLE/views/extra.py:100-104 | Reading the parameters in order yields one value per key, each the launch's value for that key. |
| Lti.ReadAllSucceeds | src/django/VLE/views/extra.py:100-104 | The reads succeed exactly when every key is in the launch. |
| Lti.ReadAllMissing | src/django/VLE/views/extra.py:100-104 | With every earlier key present, the first absent key is the one the KeyError names. |
| Lti.CreationKeysDistinct | src/django/VLE/views/extra.py:98-107 | The payload keys of both creation states are pairwise distinct, and none of them is `lti_points_possible`. |
| Lti.CreationPayload | src/django/VLE/views/extra.py:98-104 | A creation payload has the state's keys in order and no key twice. Each copied key answers with the launch's value for the parameter it copies. |
| Lti.NewCoursePayloadShape | src/django/VLE/views/extra.py:98-104 | With all five launch fields present, the new-course payload has the keys state, lti_cName, lti_abbr, lti_cID, lti_aName and lti_aID in that order, with state "2". `lti_cName`, `lti_abbr`, `lti_cID`, `lti_aName` and `lti_aID` carry `context_title`, `context_label`, `context_id`, `resource_link_title` and `resource_link_id`. |
| Lti.NewAssignmentPayloadShape | src/django/VLE/views/extra.py:117-120 | The new-assignment payload has the keys state, cID, lti_aName and lti_aID in that order. The state is "3", `cID` is the course's primary key, and `lti_aName` and `lti_aID` carry `resource_link_title` and `resource_link_id`. |
| Lti.FinishPayloadShape | src/django/VLE/views/extra.py:130-137 | The finish payload has keys state, cID, aID and jID. The state is "5" when a journal exists and "4" otherwise. |
| Lti.FinishCarriesIds | src/django/VLE/views/extra.py:131-137 | The finish answer carries the course and assignment primary keys and the journal key, which is null when there is none. |
| Lti.CreationResponse | src/django/VLE/views/extra.py:106-109 | A creation answer is a 200 whose params have the payload's keys, plus `lti_points_possible` exactly when the launch has the Canvas points field. Every other key has the payload's value. `lti_points_possible` carries the launch's Canvas points value unchanged. |
| Lti.Dispatch | src/django/VLE/views/extra.py:96-138 | The branch taken follows the decision table over role, course, assignment and journal. |
| Lti.DecideCreateCourse | src/django/VLE/views/extra.py:97-109 | A teacher with an unknown course gets the new-course state. |
| Lti.DecideCreateAssignment | src/django/VLE/views/extra.py:114-125 | A teacher with a known course and an unknown assignment gets the new-assignment state. |
| Lti.DecideFinish | src/django/VLE/views/extra.py:130-138 | With course and assignment known, every role gets a finish state. |
| Lti.DecideNotFound | src/django/VLE/views/extra.py:110-112 | A non-teacher with an unknown course or assignment gets 404. The description carries the literal's line-continuation indent. |
| Lti.EntryStateDecision | src/django/VLE/views/extra.py:80-138 | With the needed fields present, the view answers 404 exactly when the table says not found. Otherwise it answers 200, and its params carry that state's code and keys in order. In the creation states, the keys end with `lti_points_possible` exactly when the launch has the Canvas points field. |
| Lti.LaunchErrors | src/django/VLE/views/extra.py:86-93 | Unauthenticated gives 401. A bad token raises. A missing `roles` key, or a role with no configured name, raises KeyError. |
| Lti.NewCourseMissingField | src/django/VLE/views/extra.py:100-104 | Without a needed field, the view raises KeyError for the first one missing, in read order. |
| Lti.NewAssignmentMissingField | src/django/VLE/views/extra.py:119-120 | The same for the new-assignment fields. |
| Lti.FirstWord | src/django/VLE/views/extra.py:167-168 | The first name is a prefix of the full name. It has no space, and a space follows it unless it is the whole name. |
| Lti.NameSplitRecombines | src/django/VLE/views/extra.py:165-169 | When the name has a space, first name + " " + last name is the full name. Otherwise the first name is the whole name and the last name is empty. |
| Lti.LastName | src/django/VLE/views/extra.py:169 | `fullname[len(first)+1:]`, which is empty when the name has no space. NameSplitRecombines states its property. |
| Lti.NewUserValue | src/django/VLE/views/extra.py:162-179 | The value each query name calls for. NewUserQuery and LtiLaunch state the alignment. |
| Lti.NewUserNames | src/django/VLE/views/extra.py:162-179 | The new-user query starts with `state` and `lti_params`. |
| Lti.NewUserNamesDistinct | src/django/VLE/views/extra.py:162-179 | No query name repeats. |
| Lti.AlignedAppend | src/django/VLE/views/extra.py:170-179 | Appending aligned names and values keeps them aligned. |
| Lti.LtiLaunch | src/django/VLE/views/extra.py:141-188 | Names and values have equal length. A bad signature gives `state=-1`. A known user gets the jwt, access, refresh and state of 1. A new user gets the names the present parameters call for, each paired with its value. |
| Lti.NewUserQuery | src/django/VLE/views/extra.py:161-179 | The new-user query has the names `NewUserNames` gives for the parameters present, and each value is the one its name calls for: `0`, the jwt, the name halves, the username or the email. |

## Left out

- Routing.GuardEvents: the `console.log` in the guard's failure branch is output only, and is left out.
- Routing.Admits: it follows vue-router 3, where a callback passed to `next` runs only in `beforeRouteEnter`. In a global `beforeEach` the callback is ignored and the navigation is confirmed. The as-written failure branch is modelled with that reading.
- Routing.AwaitedEvents: the redirect to `ErrorPage` passes through the guard again, with scope `-1`. If that site-wide request fails too, the corrected guard redirects once more, on every attempt. The model describes one navigation at a time and does not bound that repetition.
- Routing.AsWrittenCallsNextTwice: it counts the calls only. What vue-router does with the second call of `next` is not modelled.
- Text.ParseNat: it accepts unsigned ASCII decimal digit strings only. Python's `int()` also accepts a sign, surrounding whitespace, underscores between digits and non-ASCII Unicode decimal digits, for example the site-wide sentinel `-1`.
- Promise scheduling is not modelled. The guard's and the clients' asynchrony is modelled as one settled outcome and an ordered trace, so interleavings of navigations and stale responses are not modelled.
- `auth.js` and `permissions.js` are not part of this model. The transport is reduced to the request it receives and the response it resolves with. Tokens, refresh and headers are left out.
- vue-router matching is reduced to exact segment matching. It leaves out case-insensitivity, query strings, hashes, optional and repeated parameters, and route priority.
- JSON serialisation of request bodies is not modelled: for example, dropping `undefined` members. Bodies are modelled as the object literal handed to the transport.
- JavaScript numbers are integers here. NaN, floats and infinities are not modelled. Integers above 2^53 are not all distinct JavaScript numbers, and `String` writes integral numbers of 1e21 and more in exponent form. Text.IntToDecimal always writes decimal digits.
- Colors.GetColors: `Math.floor(itemCount / 3)` is modelled on integer counts only. A fractional count is out of scope.
- Http.Property: a property read on an array, string, number or boolean yields `undefined`. Their built-in properties, such as `length`, are not modelled.
- Text.PyRepr: Python's escaping is modelled for quotes, backslashes, newline, carriage return and tab. Other non-printable characters and the `\x`, `\u` and `\U` escapes are not modelled.
- Lti.RoleNamed: the configuration is a list of string pairs. A non-string LTI role raises KeyError in the model. The Python code would raise TypeError for an unhashable value.
- `jwt.decode` is an input and `jwt.encode` is an input string. OAuth signature checking, the configuration file, database lookups and token issuing are inputs too.
- `check_course_lti`, `check_assignment_lti`, `select_create_journal` and `check_user_lti` are not part of this model. Their results enter as primary keys or tokens.
- The `exp` claim, `redirect` and `create_lti_query_link` are left out. The model stops at the query names and values.
- The `names` view in `extra.py` and `fileb64`/`file` in `responses.py` are left out. They are file and database I/O.
- The `NO_COURSE`, `NO_ASSIGN` and `GRADE_CENTER` constants are declared in `Lti` but not used by either view.

## Findings

| source | as written | input that shows it | evidently intended | confidence | as-written member | corrected member |
|---|---|---|---|---|---|---|
| src/vue/src/router/index.js:112-117 | On failure the guard calls `next(vm => vm.$router.push(...))`. vue-router runs `next` callbacks only in `beforeRouteEnter`, so in a global guard this call admits the navigation, and the push to `ErrorPage` never runs. | A navigation whose permission request is rejected: the target route is admitted, and no `ErrorPage` navigation follows. | Redirect with `next({name: 'ErrorPage', params: {...}})`. | not executed | Routing.AsWrittenFailureAdmits | Routing.AwaitedAdmitsOnlyAfterWrite |
| src/vue/src/router/index.js:120 | `next()` is called unconditionally after the permission request is issued, so navigation proceeds before permissions are written and `next` is called a second time when the request settles. | Any navigation, for example to `/Home` with a rejected permission request: the event order is fetch, `next()`, then `next(callback)`. | Call `next` only inside the promise handlers, once per navigation, after the permissions are written or with the error redirect. | not executed | Routing.AsWrittenAdmitsBeforeWrite | Routing.AwaitedAdmitsOnlyAfterWrite |
