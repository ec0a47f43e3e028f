/**
 * The course client of the Vue code (src/vue/src/api/course.js). Every method is one
 * authenticated transport call followed by a projection of one response field.
 */
module Course {
  import opened Wrappers
  import opened Json
  import opened Http
  import Text

  /** `'/get_course_data/' + cID + '/'`, GET, resolving to `data.course`. */
  function GetCourseData(cID: Value): (c: Call)
    ensures c.request.verb == AuthenticatedGet && c.request.argument == None
    ensures Text.StripAffixes(c.request.path, "/get_course_data/", "/") == Some(JsString(cID))
    ensures forall x :: Resolve(c, Plant(["data", "course"], x)) == Success(x)
  {
    Text.StripAffixesOfConcat("/get_course_data/", JsString(cID), "/");
    var c := Call(Request(AuthenticatedGet, "/get_course_data/" + JsString(cID) + "/", None), ["data", "course"]);
    ResolvesPlanted(c);
    c
  }

  /** GET `/get_user_teacher_courses/`, resolving to `data.courses`. */
  function GetUserTeacherCourses(): (c: Call)
    ensures c.request == Request(AuthenticatedGet, "/get_user_teacher_courses/", None)
    ensures forall x :: Resolve(c, Plant(["data", "courses"], x)) == Success(x)
  {
    var c := Call(Request(AuthenticatedGet, "/get_user_teacher_courses/", None), ["data", "courses"]);
    ResolvesPlanted(c);
    c
  }

  /** GET `/get_user_courses/`, resolving to `data.courses`. */
  function GetUserCourses(): (c: Call)
    ensures c.request == Request(AuthenticatedGet, "/get_user_courses/", None)
    ensures forall x :: Resolve(c, Plant(["data", "courses"], x)) == Success(x)
  {
    var c := Call(Request(AuthenticatedGet, "/get_user_courses/", None), ["data", "courses"]);
    ResolvesPlanted(c);
    c
  }

  /** `'/get_course_users/' + cID + '/'`, GET, resolving to the whole `data`. */
  function GetUsers(cID: Value): (c: Call)
    ensures c.request.verb == AuthenticatedGet && c.request.argument == None
    ensures Text.StripAffixes(c.request.path, "/get_course_users/", "/") == Some(JsString(cID))
    ensures forall response :: Resolve(c, response) == Property(response, "data")
  {
    Text.StripAffixesOfConcat("/get_course_users/", JsString(cID), "/");
    Call(Request(AuthenticatedGet, "/get_course_users/" + JsString(cID) + "/", None), ["data"])
  }

  /** `'/get_unenrolled_users/' + cID + '/'`, GET, resolving to `data.users`. */
  function GetUnenrolledUsers(cID: Value): (c: Call)
    ensures c.request.verb == AuthenticatedGet && c.request.argument == None
    ensures Text.StripAffixes(c.request.path, "/get_unenrolled_users/", "/") == Some(JsString(cID))
    ensures forall x :: Resolve(c, Plant(["data", "users"], x)) == Success(x)
  {
    Text.StripAffixesOfConcat("/get_unenrolled_users/", JsString(cID), "/");
    var c := Call(Request(AuthenticatedGet, "/get_unenrolled_users/" + JsString(cID) + "/", None), ["data", "users"]);
    ResolvesPlanted(c);
    c
  }

  /** `'/get_upcoming_course_deadlines/' + cID + '/'`, GET, resolving to `data.deadlines`. */
  function GetUpcomingCourseDeadlines(cID: Value): (c: Call)
    ensures c.request.verb == AuthenticatedGet && c.request.argument == None
    ensures Text.StripAffixes(c.request.path, "/get_upcoming_course_deadlines/", "/") == Some(JsString(cID))
    ensures forall x :: Resolve(c, Plant(["data", "deadlines"], x)) == Success(x)
  {
    Text.StripAffixesOfConcat("/get_upcoming_course_deadlines/", JsString(cID), "/");
    var c := Call(Request(AuthenticatedGet, "/get_upcoming_course_deadlines/" + JsString(cID) + "/", None), ["data", "deadlines"]);
    ResolvesPlanted(c);
    c
  }

  /** A parameter declared `= null`: a missing or `undefined` argument becomes `null`. */
  function DefaultNull(v: Value): (r: Value)
    ensures r != Undefined
    ensures v != Undefined ==> r == v
  {
    if v.Undefined? then Null else v
  }

  /**
   * POST `/create_new_course/` with exactly {name, abbr, startdate, lti_id}, resolving
   * to the whole `data`. `lti_id` defaults to null: JavaScript applies a default
   * parameter when the argument is left out or is `undefined`, so the key is always
   * sent with a defined value.
   */
  function CreateNewCourse(name: Value, abbr: Value, startdate: Value, ltiId: Value): (c: Call)
    ensures c.request == Request(AuthenticatedPost, "/create_new_course/",
      Body([("name", name), ("abbr", abbr), ("startdate", startdate), ("lti_id", DefaultNull(ltiId))]))
    ensures forall response :: Resolve(c, response) == Property(response, "data")
  {
    Call(Request(AuthenticatedPost, "/create_new_course/",
                 Body([("name", name), ("abbr", abbr), ("startdate", startdate), ("lti_id", DefaultNull(ltiId))])),
         ["data"])
  }

  /** POST `/update_course/` with {cID, name, abbr, startDate}, resolving to `data.course`. */
  function UpdateCourse(cID: Value, name: Value, abbr: Value, startDate: Value): (c: Call)
    ensures c.request == Request(AuthenticatedPost, "/update_course/",
      Body([("cID", cID), ("name", name), ("abbr", abbr), ("startDate", startDate)]))
    ensures forall x :: Resolve(c, Plant(["data", "course"], x)) == Success(x)
  {
    var c := Call(Request(AuthenticatedPost, "/update_course/",
                          Body([("cID", cID), ("name", name), ("abbr", abbr), ("startDate", startDate)])),
                  ["data", "course"]);
    ResolvesPlanted(c);
    c
  }

  /** POST `/connect_course_lti/` sending the argument `ltiID` as `lti_id`, resolving to `data.course`. */
  function ConnectCourseLti(cID: Value, ltiID: Value): (c: Call)
    ensures c.request == Request(AuthenticatedPost, "/connect_course_lti/", Body([("cID", cID), ("lti_id", ltiID)]))
    ensures forall x :: Resolve(c, Plant(["data", "course"], x)) == Success(x)
  {
    var c := Call(Request(AuthenticatedPost, "/connect_course_lti/", Body([("cID", cID), ("lti_id", ltiID)])),
                  ["data", "course"]);
    ResolvesPlanted(c);
    c
  }

  /** POST `/update_course_with_studentID/` with {uID, cID}, resolving to `data.result`. */
  function UpdateCourseWithStudentID(uID: Value, cID: Value): (c: Call)
    ensures c.request == Request(AuthenticatedPost, "/update_course_with_studentID/",
      Body([("uID", uID), ("cID", cID)]))
    ensures forall x :: Resolve(c, Plant(["data", "result"], x)) == Success(x)
  {
    var c := Call(Request(AuthenticatedPost, "/update_course_with_studentID/", Body([("uID", uID), ("cID", cID)])),
                  ["data", "result"]);
    ResolvesPlanted(c);
    c
  }

  /** POST `/delete_course/` with {cID}, resolving to the top-level `message` of the response. */
  function DeleteCourse(cID: Value): (c: Call)
    ensures c.request == Request(AuthenticatedPost, "/delete_course/", Body([("cID", cID)]))
    ensures forall response :: Resolve(c, response) == Property(response, "message")
  {
    Call(Request(AuthenticatedPost, "/delete_course/", Body([("cID", cID)])), ["message"])
  }

  /** POST `/update_user_role_course/` with {uID, cID, role}, resolving to `data.result`. */
  function UpdateUserRoleCourse(uID: Value, cID: Value, role: Value): (c: Call)
    ensures c.request == Request(AuthenticatedPost, "/update_user_role_course/",
      Body([("uID", uID), ("cID", cID), ("role", role)]))
    ensures forall x :: Resolve(c, Plant(["data", "result"], x)) == Success(x)
  {
    var c := Call(Request(AuthenticatedPost, "/update_user_role_course/",
                          Body([("uID", uID), ("cID", cID), ("role", role)])),
                  ["data", "result"]);
    ResolvesPlanted(c);
    c
  }

  /** POST `/delete_user_from_course/` with {uID, cID}, resolving to `data.result`. */
  function DeleteUserFromCourse(uID: Value, cID: Value): (c: Call)
    ensures c.request == Request(AuthenticatedPost, "/delete_user_from_course/",
      Body([("uID", uID), ("cID", cID)]))
    ensures forall x :: Resolve(c, Plant(["data", "result"], x)) == Success(x)
  {
    var c := Call(Request(AuthenticatedPost, "/delete_user_from_course/", Body([("uID", uID), ("cID", cID)])),
                  ["data", "result"]);
    ResolvesPlanted(c);
    c
  }

  /**
   * A natural course id leaves the client as its decimal digits, between the path's
   * prefix and its closing slash, and those digits parse back to the same id.
   */
  lemma CourseIdRoundTrip(id: nat)
    ensures Text.StripAffixes(GetCourseData(Num(id)).request.path, "/get_course_data/", "/")
              == Some(Text.NatToDecimal(id))
    ensures Text.ParseNat(Text.NatToDecimal(id)) == Some(id)
  {
    Text.ParseNatDecimal(id);
  }

  /** Different numeric course ids give different course-data paths. */
  lemma CourseDataPathsDistinct(m: int, n: int)
    requires m != n
    ensures GetCourseData(Num(m)).request.path != GetCourseData(Num(n)).request.path
  {
    Text.IntToDecimalInjective(m, n);
    var pm := GetCourseData(Num(m)).request.path;
    var pn := GetCourseData(Num(n)).request.path;
    assert Text.StripAffixes(pm, "/get_course_data/", "/") != Text.StripAffixes(pn, "/get_course_data/", "/");
  }

  /**
   * create sends the start date as `startdate`, update as `startDate`: the two
   * requests never share that key.
   */
  lemma StartDateKeysDiffer(cID: Value, name: Value, abbr: Value, date: Value, ltiId: Value)
    ensures "startdate" in ArgumentKeys(CreateNewCourse(name, abbr, date, ltiId).request)
    ensures "startDate" !in ArgumentKeys(CreateNewCourse(name, abbr, date, ltiId).request)
    ensures "startDate" in ArgumentKeys(UpdateCourse(cID, name, abbr, date).request)
    ensures "startdate" !in ArgumentKeys(UpdateCourse(cID, name, abbr, date).request)
  {
    var create := ArgumentKeys(CreateNewCourse(name, abbr, date, ltiId).request);
    assert create == ["name", "abbr", "startdate", "lti_id"] by {
      KeysOfFour("name", name, "abbr", abbr, "startdate", date, "lti_id", DefaultNull(ltiId));
    }
    var update := ArgumentKeys(UpdateCourse(cID, name, abbr, date).request);
    assert update == ["cID", "name", "abbr", "startDate"] by {
      KeysOfFour("cID", cID, "name", name, "abbr", abbr, "startDate", date);
    }
    // The key literals are told apart by one character, which keeps the proof cheap.
    assert "startdate" != "startDate" by {
      assert "startdate"[5] != "startDate"[5];
    }
    assert "startDate" != "name" && "startDate" != "abbr" && "startDate" != "lti_id";
    NotAmongFour("startDate", "name", "abbr", "startdate", "lti_id");
    assert "startdate" != "cID" && "startdate" != "name" && "startdate" != "abbr";
    NotAmongFour("startdate", "cID", "name", "abbr", "startDate");
  }

  /**
   * delete_course reads `message` from the response itself, not from `data`: a
   * message carried only under `data` resolves to undefined.
   */
  lemma DeleteCourseIgnoresData(cID: Value, m: Value)
    ensures Resolve(DeleteCourse(cID), Plant(["data", "message"], m)) == Success(Undefined)
    ensures Resolve(DeleteCourse(cID), Plant(["message"], m)) == Success(m)
  {
  }

  /** get_users hands back all of `data`; the sibling clients unwrap one field of it. */
  lemma GetUsersReturnsWholeData(cID: Value, x: Value)
    ensures Resolve(GetUsers(cID), Plant(["data"], x)) == Success(x)
    ensures Resolve(GetUnenrolledUsers(cID), Plant(["data"], x)) == Property(x, "users")
    ensures Resolve(GetUpcomingCourseDeadlines(cID), Plant(["data"], x)) == Property(x, "deadlines")
  {
    assert GetUsers(cID).unwrap == ["data"];
    LookupFirst([("data", x)], "data");
    assert GetUnenrolledUsers(cID).unwrap == ["data", "users"];
    UnwrapSecond("data", "users", x);
    assert GetUpcomingCourseDeadlines(cID).unwrap == ["data", "deadlines"];
    UnwrapSecond("data", "deadlines", x);
  }

  /** create_new_course always sends `lti_id`, and never as undefined: null when it was not given. */
  lemma CreateSendsLtiId(name: Value, abbr: Value, startdate: Value, ltiId: Value)
    ensures ArgumentField(CreateNewCourse(name, abbr, startdate, ltiId).request, "lti_id")
              == Some(if ltiId == Undefined then Null else ltiId)
    ensures ArgumentField(CreateNewCourse(name, abbr, startdate, ltiId).request, "lti_id") != Some(Undefined)
  {
    var fields := [("name", name), ("abbr", abbr), ("startdate", startdate), ("lti_id", DefaultNull(ltiId))];
    var r := CreateNewCourse(name, abbr, startdate, ltiId).request;
    assert ArgumentField(r, "lti_id") == Lookup(fields, "lti_id") by {
      assert r.argument == Some(Obj(fields));
    }
    assert DefaultNull(ltiId) == if ltiId == Undefined then Null else ltiId;
    assert Some(DefaultNull(ltiId)) != Some(Undefined);
    assert Lookup(fields, "lti_id") == Some(DefaultNull(ltiId)) by {
      assert |"lti_id"| != |"name"| && |"lti_id"| != |"abbr"| && |"lti_id"| != |"startdate"|;
      LookupFourth("name", name, "abbr", abbr, "startdate", startdate, "lti_id", DefaultNull(ltiId));
    }
  }

  /** connect_course_lti sends its `ltiID` argument under the key `lti_id`. */
  lemma ConnectRenamesLtiId(cID: Value, ltiID: Value)
    ensures ArgumentField(ConnectCourseLti(cID, ltiID).request, "lti_id") == Some(ltiID)
    ensures ArgumentKeys(ConnectCourseLti(cID, ltiID).request) == ["cID", "lti_id"]
  {
    var fields := [("cID", cID), ("lti_id", ltiID)];
    assert Keys(fields) == ["cID", "lti_id"];
  }
}
