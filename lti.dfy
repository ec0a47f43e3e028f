/**
 * The LTI entry points of the Django views (src/django/VLE/views/extra.py): the
 * launch view, which turns a signed LTI POST into a redirect query for the Vue
 * client, and the view that decides, from the decoded launch parameters, which
 * entry state the client must show. The LTI lookups, the JWT step, the OAuth
 * signature check and the configuration file are inputs.
 */
module Lti {
  import opened Wrappers
  import opened Json
  import Responses

  // Entry states of the Vue client.
  const BadAuth := "-1"
  const NoUser := "0"
  const LoggedIn := "1"
  const NoCourse := "0"
  const NoAssign := "1"
  const NewCourse := "2"
  const NewAssign := "3"
  const FinishT := "4"
  const FinishS := "5"
  const GradeCenter := "6"

  const PointsKey := "custom_canvas_assignment_points_possible"

  /**
   * The description of the not-found answer. The source continues the string literal
   * over a line break with a backslash, so the next line's indentation (16 spaces)
   * becomes part of the text.
   */
  const AssignmentNotFound := "The assignment you are looking for cannot be found. "
                              + "                "
                              + "<br>Note: it might still be reachable through the assignment section"

  /** An exception the view does not catch, which Django answers with a server error. */
  datatype Raised = MissingKey(key: Value) | InvalidToken

  /** `d[k]`, raising KeyError when the key is absent. */
  function Field(d: Dict, k: string): (r: Result<Value, Raised>)
    ensures r.Success? <==> k in Keys(d)
    ensures r.Success? ==> Lookup(d, k) == Some(r.value)
  {
    match Lookup(d, k)
    case Some(v) => Success(v)
    case None => Failure(MissingKey(Str(k)))
  }

  /**
   * `dict((roles[k], k) for k in roles)[ltiRole]`: the configured role whose LTI name
   * is `ltiRole`. When several roles share an LTI name the last one wins, as the
   * later entry overwrites the earlier in the inverted dict.
   */
  function RoleNamed(roles: seq<(string, string)>, ltiRole: Value): (r: Result<string, Raised>)
    ensures r.Success? <==> exists i :: 0 <= i < |roles| && ltiRole == Str(roles[i].1)
    ensures r.Success? ==> exists i :: 0 <= i < |roles| && roles[i] == (r.value, ltiRole.s)
                                   && forall j :: i < j < |roles| ==> ltiRole != Str(roles[j].1)
    ensures r.Failure? ==> r.error == MissingKey(ltiRole)
    decreases |roles|
  {
    if roles == [] then Failure(MissingKey(ltiRole))
    else if ltiRole == Str(roles[|roles| - 1].1) then Success(roles[|roles| - 1].0)
    else
      var r := RoleNamed(roles[..|roles| - 1], ltiRole);
      assert forall i :: 0 <= i < |roles| - 1 ==> roles[..|roles| - 1][i] == roles[i];
      r
  }

  /** Adds `lti_points_possible` when the launch carried the Canvas points field. */
  function WithPoints(payload: Dict, lti: Dict): Dict
  {
    match Lookup(lti, PointsKey)
    case Some(p) => Set(payload, "lti_points_possible", p)
    case None => payload
  }

  /** `response.success(payload={'params': payload})`. */
  function ParamsResponse(payload: Dict): Responses.JsonResponse
  {
    Responses.Success(payload := [("params", Obj(payload))])
  }

  /**
   * The reads `lti_params[k]` for the keys in order, as the view's sequence of
   * assignments performs them; the first absent key raises KeyError.
   */
  function ReadAll(d: Dict, keys: seq<string>): (r: Result<seq<Value>, Raised>)
    ensures r.Success? ==> |r.value| == |keys|
    ensures r.Success? ==> forall i :: 0 <= i < |keys| ==> Lookup(d, keys[i]) == Some(r.value[i])
    decreases |keys|
  {
    if keys == [] then Success([])
    else
      var v :- Field(d, keys[0]);
      var rest :- ReadAll(d, keys[1..]);
      assert forall i :: 1 <= i < |keys| ==> keys[i] == keys[1..][i - 1];
      Success([v] + rest)
  }

  /** The entries `payload[names[i]] = values[i]`, in order. */
  function Entries(names: seq<string>, values: seq<Value>): (d: Dict)
    requires |names| == |values|
    ensures |d| == |names|
    ensures forall i :: 0 <= i < |d| ==> d[i] == (names[i], values[i])
  {
    seq(|names|, i requires 0 <= i < |names| => (names[i], values[i]))
  }

  /** The payload of the new-course state, read from the launch in the source's order. */
  function NewCoursePayload(lti: Dict): Result<Dict, Raised>
  {
    var values :- ReadAll(lti, RequiredFields(CreateCourse));
    Success([("state", Str(NewCourse))] + Entries(CopiedAs(CreateCourse), values))
  }

  /** The payload of the new-assignment state for the course with primary key `course`. */
  function NewAssignmentPayload(lti: Dict, course: int): Result<Dict, Raised>
  {
    var values :- ReadAll(lti, RequiredFields(CreateAssignment));
    Success([("state", Str(NewAssign)), ("cID", Num(course))] + Entries(CopiedAs(CreateAssignment), values))
  }

  /** The payload of the two finish states; `jID` is null when no journal was selected. */
  function FinishPayload(course: int, assignment: int, journal: Option<int>): Dict
  {
    var jID := if journal.Some? then Num(journal.value) else Null;
    var state := if jID == Null then FinishT else FinishS;
    [("state", Str(state)), ("cID", Num(course)), ("aID", Num(assignment)), ("jID", jID)]
  }

  /**
   * `get_lti_params_from_jwt`. `decoded` is the outcome of `jwt.decode` (None when it
   * raises), `roles` the content of the configuration file, and `course`,
   * `assignment` and `journal` the primary keys the LTI lookups return (None for
   * Python's None). Each payload is filled with fresh keys, so every assignment
   * appends.
   */
  function GetLtiParamsFromJwt(authenticated: bool, decoded: Option<Dict>, roles: seq<(string, string)>,
                               course: Option<int>, assignment: Option<int>, journal: Option<int>)
    : (r: Result<Responses.JsonResponse, Raised>)
    ensures r.Success? ==> r.value.status in {200, 401, 404}
    ensures r.Success? && r.value.status == 401 <==> !authenticated
  {
    if !authenticated then Success(Responses.Unauthorized())
    else if decoded.None? then Failure(InvalidToken)
    else
      var lti := decoded.value;
      var ltiRole :- Field(lti, "roles");
      var role :- RoleNamed(roles, ltiRole);
      if course.None? then
        if role == "Teacher" then
          var payload :- NewCoursePayload(lti);
          Success(ParamsResponse(WithPoints(payload, lti)))
        else
          Success(Responses.NotFound(AssignmentNotFound))
      else if assignment.None? then
        if role == "Teacher" then
          var payload :- NewAssignmentPayload(lti, course.value);
          Success(ParamsResponse(WithPoints(payload, lti)))
        else
          Success(Responses.NotFound(AssignmentNotFound))
      else
        Success(ParamsResponse(FinishPayload(course.value, assignment.value, journal)))
  }

  /** The entry states, as a decision table over what the lookups found. */
  datatype Entry = CreateCourse | CreateAssignment | Finish(hasJournal: bool) | NotFoundEntry

  function Decide(isTeacher: bool, courseFound: bool, assignmentFound: bool, journalFound: bool): Entry
  {
    if courseFound && assignmentFound then Finish(journalFound)
    else if !isTeacher then NotFoundEntry
    else if courseFound then CreateAssignment
    else CreateCourse
  }

  function StateCode(e: Entry): string
  {
    match e
    case CreateCourse => NewCourse
    case CreateAssignment => NewAssign
    case Finish(j) => if j then FinishS else FinishT
    case NotFoundEntry => ""
  }

  /** The launch parameters an entry state reads. */
  function RequiredFields(e: Entry): seq<string>
  {
    match e
    case CreateCourse => ["context_title", "context_label", "context_id", "resource_link_title", "resource_link_id"]
    case CreateAssignment => ["resource_link_title", "resource_link_id"]
    case _ => []
  }

  /** The payload keys under which a creation state sends the parameters it reads. */
  function CopiedAs(e: Entry): (names: seq<string>)
    ensures |names| == |RequiredFields(e)|
  {
    match e
    case CreateCourse => ["lti_cName", "lti_abbr", "lti_cID", "lti_aName", "lti_aID"]
    case CreateAssignment => ["lti_aName", "lti_aID"]
    case _ => []
  }

  /** The keys of the payload an entry state sends, before the optional points key. */
  function PayloadKeys(e: Entry): seq<string>
  {
    match e
    case CreateCourse => ["state", "lti_cName", "lti_abbr", "lti_cID", "lti_aName", "lti_aID"]
    case CreateAssignment => ["state", "cID", "lti_aName", "lti_aID"]
    case _ => ["state", "cID", "aID", "jID"]
  }

  /** The `params` dict of a success response, if it has one. */
  function ParamsOf(r: Responses.JsonResponse): Option<Dict>
  {
    match Lookup(r.body, "params")
    case Some(v) => if v.Obj? then Some(v.fields) else None
    case None => None
  }

  lemma ParamsOfResponse(payload: Dict)
    ensures ParamsOf(ParamsResponse(payload)) == Some(payload)
    ensures ParamsResponse(payload).status == 200
  {
    var p := [("params", Obj(payload))];
    assert Keys(p) == ["params"];
    assert Unique(p);
  }

  lemma WithPointsKeys(payload: Dict, lti: Dict)
    requires "lti_points_possible" !in Keys(payload)
    ensures Keys(WithPoints(payload, lti))
              == Keys(payload) + (if PointsKey in Keys(lti) then ["lti_points_possible"] else [])
    ensures PointsKey in Keys(lti) ==> Lookup(WithPoints(payload, lti), "lti_points_possible") == Lookup(lti, PointsKey)
    ensures forall k :: k != "lti_points_possible" ==> Lookup(WithPoints(payload, lti), k) == Lookup(payload, k)
  {
    match Lookup(lti, PointsKey)
    case Some(p) =>
      SetKeys(payload, "lti_points_possible", p);
      forall k ensures Lookup(WithPoints(payload, lti), k) == if k == "lti_points_possible" then Some(p) else Lookup(payload, k) {
        SetLookup(payload, "lti_points_possible", p, k);
      }
    case None =>
  }

  /** The launch as far as the decision needs it: signed in, decodable, with a known role. */
  predicate Decodable(authenticated: bool, decoded: Option<Dict>, roles: seq<(string, string)>)
  {
    authenticated && decoded.Some? && Field(decoded.value, "roles").Success?
    && RoleNamed(roles, Field(decoded.value, "roles").value).Success?
  }

  function RoleOf(decoded: Option<Dict>, roles: seq<(string, string)>): string
    requires decoded.Some? && Field(decoded.value, "roles").Success?
    requires RoleNamed(roles, Field(decoded.value, "roles").value).Success?
  {
    RoleNamed(roles, Field(decoded.value, "roles").value).value
  }

  /** Every parameter the entry state reads is in the launch. */
  predicate HasFields(lti: Dict, fields: seq<string>)
  {
    forall i :: 0 <= i < |fields| ==> Field(lti, fields[i]).Success?
  }

  /** The reads succeed exactly when every key is present. */
  lemma {:induction false} ReadAllSucceeds(d: Dict, keys: seq<string>)
    ensures ReadAll(d, keys).Success? <==> HasFields(d, keys)
    decreases |keys|
  {
    if keys != [] {
      ReadAllSucceeds(d, keys[1..]);
      if HasFields(d, keys) {
        assert forall i :: 0 <= i < |keys| - 1 ==> keys[1..][i] == keys[i + 1];
      } else if Field(d, keys[0]).Success? {
        var i :| 0 <= i < |keys| && !Field(d, keys[i]).Success?;
        assert keys[1..][i - 1] == keys[i];
      }
    }
  }

  /** The reads raise KeyError for the first absent key. */
  lemma {:induction false} ReadAllMissing(d: Dict, keys: seq<string>, i: nat)
    requires i < |keys|
    requires forall j :: 0 <= j < i ==> Field(d, keys[j]).Success?
    requires keys[i] !in Keys(d)
    ensures ReadAll(d, keys) == Failure(MissingKey(Str(keys[i])))
    decreases i
  {
    if i > 0 {
      assert Field(d, keys[0]).Success?;
      assert forall j :: 0 <= j < i - 1 ==> keys[1..][j] == keys[j + 1];
      ReadAllMissing(d, keys[1..], i - 1);
    }
  }

  /** Distinct keys: each entry answers the lookup of its own key. */
  lemma {:induction false} LookupEntry(d: Dict, i: nat)
    requires Unique(d) && i < |d|
    ensures Lookup(d, d[i].0) == Some(d[i].1)
    decreases i
  {
    if i > 0 {
      assert d[0].0 != d[i].0;
      assert Unique(d[1..]) by {
        forall a, b | 0 <= a < b < |d| - 1 ensures d[1..][a].0 != d[1..][b].0 {
          assert d[1..][a] == d[a + 1] && d[1..][b] == d[b + 1];
        }
      }
      LookupEntry(d[1..], i - 1);
    }
  }

  /**
   * The payload keys of a creation state are pairwise distinct, and none of them is
   * the points key the view may add.
   */
  lemma CreationKeysDistinct(e: Entry)
    requires e == CreateCourse || e == CreateAssignment
    ensures forall a, b :: 0 <= a < b < |PayloadKeys(e)| ==> PayloadKeys(e)[a] != PayloadKeys(e)[b]
    ensures "lti_points_possible" !in PayloadKeys(e)
  {
    var ks := PayloadKeys(e);
    // The key literals are told apart by length or by one character, which keeps the proof cheap.
    forall i | 0 <= i < |ks| ensures ks[i] != "lti_points_possible" {
      assert |ks[i]| < |"lti_points_possible"|;
    }
    forall a, b | 0 <= a < b < |ks| ensures ks[a] != ks[b] {
      if |ks[a]| == |ks[b]| {
        assert ks[a][4] != ks[b][4];
      }
    }
  }

  /**
   * Entries appended after a head: the keys are the head's followed by the names,
   * and when all of them differ each name answers with its own value.
   */
  lemma EntriesAfterHead(head: Dict, names: seq<string>, values: seq<Value>)
    requires |names| == |values|
    requires forall a, b :: 0 <= a < b < |Keys(head) + names| ==> (Keys(head) + names)[a] != (Keys(head) + names)[b]
    ensures Keys(head + Entries(names, values)) == Keys(head) + names
    ensures Unique(head + Entries(names, values))
    ensures forall i :: 0 <= i < |names| ==> Lookup(head + Entries(names, values), names[i]) == Some(values[i])
  {
    EntriesKeys(head, names, values);
    var d := head + Entries(names, values);
    UniqueByKeys(d);
    forall i | 0 <= i < |names| ensures Lookup(d, names[i]) == Some(values[i]) {
      EntryAfterHead(head, names, values, i);
    }
  }

  lemma EntriesKeys(head: Dict, names: seq<string>, values: seq<Value>)
    requires |names| == |values|
    ensures Keys(head + Entries(names, values)) == Keys(head) + names
  {
    var d := head + Entries(names, values);
    forall k | 0 <= k < |d| ensures Keys(d)[k] == (Keys(head) + names)[k] {
      if k >= |head| {
        assert d[k] == Entries(names, values)[k - |head|];
      }
    }
  }

  /** Distinct keys make a dict. */
  lemma UniqueByKeys(d: Dict)
    requires forall a, b :: 0 <= a < b < |Keys(d)| ==> Keys(d)[a] != Keys(d)[b]
    ensures Unique(d)
  {
    forall a, b | 0 <= a < b < |d| ensures d[a].0 != d[b].0 {
      assert Keys(d)[a] == d[a].0 && Keys(d)[b] == d[b].0;
    }
  }

  lemma EntryAfterHead(head: Dict, names: seq<string>, values: seq<Value>, i: nat)
    requires |names| == |values| && i < |names|
    requires Unique(head + Entries(names, values))
    ensures Lookup(head + Entries(names, values), names[i]) == Some(values[i])
  {
    var d := head + Entries(names, values);
    var j := |head| + i;
    assert d[j] == (names[i], values[i]) by {
      assert Entries(names, values)[i] == (names[i], values[i]);
    }
    LookupEntry(d, j);
  }

  /**
   * A creation payload: the state entry (and the course id) followed by each read
   * parameter under its payload name.
   */
  lemma CreationPayload(head: Dict, e: Entry, values: seq<Value>, lti: Dict)
    requires e == CreateCourse || e == CreateAssignment
    requires |values| == |RequiredFields(e)|
    requires forall i :: 0 <= i < |values| ==> Lookup(lti, RequiredFields(e)[i]) == Some(values[i])
    requires Keys(head) + CopiedAs(e) == PayloadKeys(e)
    ensures Keys(head + Entries(CopiedAs(e), values)) == PayloadKeys(e)
    ensures Unique(head + Entries(CopiedAs(e), values))
    ensures forall i :: 0 <= i < |values| ==>
              Lookup(head + Entries(CopiedAs(e), values), CopiedAs(e)[i]) == Lookup(lti, RequiredFields(e)[i])
  {
    CreationKeysDistinct(e);
    EntriesAfterHead(head, CopiedAs(e), values);
  }

  /**
   * With the five launch parameters present, the new-course payload has the keys
   * of that state in order, state "2", and `lti_cName`, `lti_abbr`, `lti_cID`,
   * `lti_aName` and `lti_aID` carrying `context_title`, `context_label`,
   * `context_id`, `resource_link_title` and `resource_link_id`.
   */
  lemma NewCoursePayloadShape(lti: Dict)
    requires HasFields(lti, RequiredFields(CreateCourse))
    ensures NewCoursePayload(lti).Success?
    ensures Keys(NewCoursePayload(lti).value) == PayloadKeys(CreateCourse)
    ensures Lookup(NewCoursePayload(lti).value, "state") == Some(Str(NewCourse))
    ensures forall i :: 0 <= i < |CopiedAs(CreateCourse)| ==>
              Lookup(NewCoursePayload(lti).value, CopiedAs(CreateCourse)[i]) == Lookup(lti, RequiredFields(CreateCourse)[i])
  {
    assert ReadAll(lti, RequiredFields(CreateCourse)).Success? by {
      ReadAllSucceeds(lti, RequiredFields(CreateCourse));
    }
    var values := ReadAll(lti, RequiredFields(CreateCourse)).value;
    assert NewCoursePayload(lti) == Success([("state", Str(NewCourse))] + Entries(CopiedAs(CreateCourse), values));
    NewCourseEntries(values, lti);
  }

  lemma NewCourseEntries(values: seq<Value>, lti: Dict)
    requires |values| == |RequiredFields(CreateCourse)|
    requires forall i :: 0 <= i < |values| ==> Lookup(lti, RequiredFields(CreateCourse)[i]) == Some(values[i])
    ensures Keys([("state", Str(NewCourse))] + Entries(CopiedAs(CreateCourse), values)) == PayloadKeys(CreateCourse)
    ensures Lookup([("state", Str(NewCourse))] + Entries(CopiedAs(CreateCourse), values), "state") == Some(Str(NewCourse))
    ensures forall i :: 0 <= i < |values| ==>
              Lookup([("state", Str(NewCourse))] + Entries(CopiedAs(CreateCourse), values), CopiedAs(CreateCourse)[i])
                == Lookup(lti, RequiredFields(CreateCourse)[i])
  {
    var head := [("state", Str(NewCourse))];
    assert Keys(head) == ["state"];
    CreationPayload(head, CreateCourse, values, lti);
    LookupFirst(head + Entries(CopiedAs(CreateCourse), values), "state");
  }

  /**
   * The new-assignment payload has that state's keys in order, state "3", the
   * course's primary key as `cID`, and the two assignment parameters.
   */
  lemma NewAssignmentPayloadShape(lti: Dict, course: int)
    requires HasFields(lti, RequiredFields(CreateAssignment))
    ensures NewAssignmentPayload(lti, course).Success?
    ensures Keys(NewAssignmentPayload(lti, course).value) == PayloadKeys(CreateAssignment)
    ensures Lookup(NewAssignmentPayload(lti, course).value, "state") == Some(Str(NewAssign))
    ensures Lookup(NewAssignmentPayload(lti, course).value, "cID") == Some(Num(course))
    ensures forall i :: 0 <= i < |CopiedAs(CreateAssignment)| ==>
              Lookup(NewAssignmentPayload(lti, course).value, CopiedAs(CreateAssignment)[i])
                == Lookup(lti, RequiredFields(CreateAssignment)[i])
  {
    assert ReadAll(lti, RequiredFields(CreateAssignment)).Success? by {
      ReadAllSucceeds(lti, RequiredFields(CreateAssignment));
    }
    var values := ReadAll(lti, RequiredFields(CreateAssignment)).value;
    assert NewAssignmentPayload(lti, course)
      == Success([("state", Str(NewAssign)), ("cID", Num(course))] + Entries(CopiedAs(CreateAssignment), values));
    NewAssignmentEntries(values, lti, course);
  }

  lemma NewAssignmentEntries(values: seq<Value>, lti: Dict, course: int)
    requires |values| == |RequiredFields(CreateAssignment)|
    requires forall i :: 0 <= i < |values| ==> Lookup(lti, RequiredFields(CreateAssignment)[i]) == Some(values[i])
    ensures Keys([("state", Str(NewAssign)), ("cID", Num(course))] + Entries(CopiedAs(CreateAssignment), values))
              == PayloadKeys(CreateAssignment)
    ensures Lookup([("state", Str(NewAssign)), ("cID", Num(course))] + Entries(CopiedAs(CreateAssignment), values), "state")
              == Some(Str(NewAssign))
    ensures Lookup([("state", Str(NewAssign)), ("cID", Num(course))] + Entries(CopiedAs(CreateAssignment), values), "cID")
              == Some(Num(course))
    ensures forall i :: 0 <= i < |values| ==>
              Lookup([("state", Str(NewAssign)), ("cID", Num(course))] + Entries(CopiedAs(CreateAssignment), values),
                     CopiedAs(CreateAssignment)[i])
                == Lookup(lti, RequiredFields(CreateAssignment)[i])
  {
    var head := [("state", Str(NewAssign)), ("cID", Num(course))];
    var d := head + Entries(CopiedAs(CreateAssignment), values);
    assert Keys(head) == ["state", "cID"];
    CreationPayload(head, CreateAssignment, values, lti);
    LookupFirst(d, "state");
    LookupEntry(d, 1);
  }

  /** The finish payload names the course, the assignment and the journal (null when absent). */
  lemma FinishPayloadShape(course: int, assignment: int, journal: Option<int>)
    ensures Keys(FinishPayload(course, assignment, journal)) == PayloadKeys(Finish(journal.Some?))
    ensures Lookup(FinishPayload(course, assignment, journal), "state") == Some(Str(StateCode(Finish(journal.Some?))))
    ensures Lookup(FinishPayload(course, assignment, journal), "cID") == Some(Num(course))
    ensures Lookup(FinishPayload(course, assignment, journal), "aID") == Some(Num(assignment))
    ensures Lookup(FinishPayload(course, assignment, journal), "jID")
              == Some(if journal.Some? then Num(journal.value) else Null)
  {
    var jID := if journal.Some? then Num(journal.value) else Null;
    var state := if jID == Null then FinishT else FinishS;
    assert state == StateCode(Finish(journal.Some?));
    FourEntries(Str(state), Num(course), Num(assignment), jID);
  }

  lemma FourEntries(state: Value, cID: Value, aID: Value, jID: Value)
    ensures Keys([("state", state), ("cID", cID), ("aID", aID), ("jID", jID)]) == ["state", "cID", "aID", "jID"]
    ensures Lookup([("state", state), ("cID", cID), ("aID", aID), ("jID", jID)], "state") == Some(state)
    ensures Lookup([("state", state), ("cID", cID), ("aID", aID), ("jID", jID)], "cID") == Some(cID)
    ensures Lookup([("state", state), ("cID", cID), ("aID", aID), ("jID", jID)], "aID") == Some(aID)
    ensures Lookup([("state", state), ("cID", cID), ("aID", aID), ("jID", jID)], "jID") == Some(jID)
  {
    var p := [("state", state), ("cID", cID), ("aID", aID), ("jID", jID)];
    assert Keys(p) == ["state", "cID", "aID", "jID"] by {
      var ks := Keys(p);
      assert ks[0] == "state" && ks[1] == "cID" && ks[2] == "aID" && ks[3] == "jID";
    }
    var p1, p2, p3 := p[1..], p[1..][1..], p[1..][1..][1..];
    assert p1[0].0 == "cID" && p2[0].0 == "aID" && p3[0].0 == "jID";
    LookupFirst(p, "state");
    // Telling the keys apart by their first character keeps the proof cheap.
    assert "state"[0] != "cID"[0] && "state"[0] != "jID"[0] && "cID"[0] != "jID"[0];
    LookupRest(p, "cID");
    LookupFirst(p1, "cID");
    LookupRest(p, "aID");
    LookupRest(p1, "aID");
    LookupFirst(p2, "aID");
    LookupRest(p, "jID");
    LookupRest(p1, "jID");
    LookupRest(p2, "jID");
    LookupFirst(p3, "jID");
  }

  /** The success answer of a creation state: its params are the payload plus the optional points. */
  lemma CreationResponse(payload: Dict, lti: Dict)
    requires "lti_points_possible" !in Keys(payload)
    ensures ParamsResponse(WithPoints(payload, lti)).status == 200
    ensures ParamsOf(ParamsResponse(WithPoints(payload, lti))).Some?
    ensures Keys(ParamsOf(ParamsResponse(WithPoints(payload, lti))).value)
              == Keys(payload) + (if PointsKey in Keys(lti) then ["lti_points_possible"] else [])
    ensures forall k :: k != "lti_points_possible" ==>
              Lookup(ParamsOf(ParamsResponse(WithPoints(payload, lti))).value, k) == Lookup(payload, k)
    ensures PointsKey in Keys(lti) ==>
              Lookup(ParamsOf(ParamsResponse(WithPoints(payload, lti))).value, "lti_points_possible")
                == Lookup(lti, PointsKey)
  {
    WithPointsKeys(payload, lti);
    ParamsOfResponse(WithPoints(payload, lti));
  }

  /** Which branch the view takes, by the decision table. */
  lemma Dispatch(authenticated: bool, decoded: Option<Dict>, roles: seq<(string, string)>,
                 course: Option<int>, assignment: Option<int>, journal: Option<int>)
    requires Decodable(authenticated, decoded, roles)
    ensures var e := Decide(RoleOf(decoded, roles) == "Teacher", course.Some?, assignment.Some?, journal.Some?);
            var r := GetLtiParamsFromJwt(authenticated, decoded, roles, course, assignment, journal);
            match e
            case CreateCourse =>
              r == (var p :- NewCoursePayload(decoded.value); Success(ParamsResponse(WithPoints(p, decoded.value))))
            case CreateAssignment =>
              r == (var p :- NewAssignmentPayload(decoded.value, course.value);
                    Success(ParamsResponse(WithPoints(p, decoded.value))))
            case Finish(_) =>
              r == Success(ParamsResponse(FinishPayload(course.value, assignment.value, journal)))
            case NotFoundEntry =>
              r == Success(Responses.NotFound(AssignmentNotFound))
  {
  }

  /**
   * `r` is the view's answer for entry state `e`: 404 exactly for not found, and
   * otherwise a 200 whose params carry the state's code and keys, plus `lti_points_possible`
   * in the two creation states exactly when the launch carried the Canvas points field.
   */
  predicate Answers(r: Result<Responses.JsonResponse, Raised>, e: Entry, lti: Dict)
  {
    && r.Success?
    && (r.value.status == 404 <==> e == NotFoundEntry)
    && (e != NotFoundEntry ==>
          && r.value.status == 200
          && ParamsOf(r.value).Some?
          && Lookup(ParamsOf(r.value).value, "state") == Some(Str(StateCode(e)))
          && Keys(ParamsOf(r.value).value)
               == PayloadKeys(e) + (if !e.Finish? && PointsKey in Keys(lti) then ["lti_points_possible"] else []))
  }

  lemma DecideCreateCourse(decoded: Option<Dict>, roles: seq<(string, string)>,
                           assignment: Option<int>, journal: Option<int>)
    requires Decodable(true, decoded, roles) && RoleOf(decoded, roles) == "Teacher"
    requires HasFields(decoded.value, RequiredFields(CreateCourse))
    ensures Answers(GetLtiParamsFromJwt(true, decoded, roles, None, assignment, journal), CreateCourse, decoded.value)
  {
    var lti := decoded.value;
    assert NewCoursePayload(lti).Success?
        && Keys(NewCoursePayload(lti).value) == PayloadKeys(CreateCourse)
        && Lookup(NewCoursePayload(lti).value, "state") == Some(Str(StateCode(CreateCourse)))
    by {
      NewCoursePayloadShape(lti);
    }
    var payload := NewCoursePayload(lti).value;
    assert GetLtiParamsFromJwt(true, decoded, roles, None, assignment, journal)
        == Success(ParamsResponse(WithPoints(payload, lti)))
    by {
      Dispatch(true, decoded, roles, None, assignment, journal);
    }
    CreationAnswers(payload, CreateCourse, lti);
  }

  lemma DecideCreateAssignment(decoded: Option<Dict>, roles: seq<(string, string)>,
                               course: int, journal: Option<int>)
    requires Decodable(true, decoded, roles) && RoleOf(decoded, roles) == "Teacher"
    requires HasFields(decoded.value, RequiredFields(CreateAssignment))
    ensures Answers(GetLtiParamsFromJwt(true, decoded, roles, Some(course), None, journal),
                    CreateAssignment, decoded.value)
  {
    var lti := decoded.value;
    assert NewAssignmentPayload(lti, course).Success?
        && Keys(NewAssignmentPayload(lti, course).value) == PayloadKeys(CreateAssignment)
        && Lookup(NewAssignmentPayload(lti, course).value, "state") == Some(Str(StateCode(CreateAssignment)))
    by {
      NewAssignmentPayloadShape(lti, course);
    }
    var payload := NewAssignmentPayload(lti, course).value;
    assert GetLtiParamsFromJwt(true, decoded, roles, Some(course), None, journal)
        == Success(ParamsResponse(WithPoints(payload, lti)))
    by {
      Dispatch(true, decoded, roles, Some(course), None, journal);
    }
    CreationAnswers(payload, CreateAssignment, lti);
  }

  lemma CreationAnswers(payload: Dict, e: Entry, lti: Dict)
    requires e == CreateCourse || e == CreateAssignment
    requires Keys(payload) == PayloadKeys(e) && Lookup(payload, "state") == Some(Str(StateCode(e)))
    ensures Answers(Success(ParamsResponse(WithPoints(payload, lti))), e, lti)
  {
    CreationKeysDistinct(e);
    CreationResponse(payload, lti);
  }

  /** A launch whose course and assignment are known always finishes, whatever the role. */
  lemma DecideFinish(decoded: Option<Dict>, roles: seq<(string, string)>,
                     course: int, assignment: int, journal: Option<int>)
    requires Decodable(true, decoded, roles)
    ensures GetLtiParamsFromJwt(true, decoded, roles, Some(course), Some(assignment), journal)
              == Success(ParamsResponse(FinishPayload(course, assignment, journal)))
    ensures Answers(GetLtiParamsFromJwt(true, decoded, roles, Some(course), Some(assignment), journal),
                    Finish(journal.Some?), decoded.value)
  {
    Dispatch(true, decoded, roles, Some(course), Some(assignment), journal);
    FinishAnswers(course, assignment, journal, decoded.value);
  }

  lemma FinishAnswers(course: int, assignment: int, journal: Option<int>, lti: Dict)
    ensures Answers(Success(ParamsResponse(FinishPayload(course, assignment, journal))), Finish(journal.Some?), lti)
  {
    var payload := FinishPayload(course, assignment, journal);
    var e := Finish(journal.Some?);
    assert ParamsOf(ParamsResponse(payload)) == Some(payload) && ParamsResponse(payload).status == 200 by {
      ParamsOfResponse(payload);
    }
    assert Lookup(payload, "state") == Some(Str(StateCode(e))) && Keys(payload) == PayloadKeys(e) by {
      FinishPayloadShape(course, assignment, journal);
    }
  }

  /** The finish answer names the course, the assignment and the journal, null when there is none. */
  lemma FinishCarriesIds(course: int, assignment: int, journal: Option<int>)
    ensures var params := ParamsOf(ParamsResponse(FinishPayload(course, assignment, journal)));
            && params.Some?
            && Lookup(params.value, "cID") == Some(Num(course))
            && Lookup(params.value, "aID") == Some(Num(assignment))
            && Lookup(params.value, "jID") == Some(if journal.Some? then Num(journal.value) else Null)
  {
    FinishPayloadShape(course, assignment, journal);
    ParamsOfResponse(FinishPayload(course, assignment, journal));
  }

  /** A non-teacher whose course or assignment is unknown gets the not-found answer. */
  lemma DecideNotFound(decoded: Option<Dict>, roles: seq<(string, string)>,
                       course: Option<int>, assignment: Option<int>, journal: Option<int>)
    requires Decodable(true, decoded, roles) && RoleOf(decoded, roles) != "Teacher"
    requires course.None? || assignment.None?
    ensures GetLtiParamsFromJwt(true, decoded, roles, course, assignment, journal)
              == Success(Responses.NotFound(AssignmentNotFound))
    ensures Answers(GetLtiParamsFromJwt(true, decoded, roles, course, assignment, journal), NotFoundEntry, decoded.value)
  {
    Dispatch(true, decoded, roles, course, assignment, journal);
  }

  /**
   * The state decision: with the parameters the chosen state reads present, the view
   * gives the answer of the state the decision table picks.
   */
  lemma EntryStateDecision(decoded: Option<Dict>, roles: seq<(string, string)>,
                           course: Option<int>, assignment: Option<int>, journal: Option<int>)
    requires Decodable(true, decoded, roles)
    requires HasFields(decoded.value, RequiredFields(Decide(RoleOf(decoded, roles) == "Teacher",
                                                          course.Some?, assignment.Some?, journal.Some?)))
    ensures Answers(GetLtiParamsFromJwt(true, decoded, roles, course, assignment, journal),
                    Decide(RoleOf(decoded, roles) == "Teacher", course.Some?, assignment.Some?, journal.Some?),
                    decoded.value)
  {
    var role := RoleOf(decoded, roles);
    if course.Some? && assignment.Some? {
      DecideFinish(decoded, roles, course.value, assignment.value, journal);
    } else if role != "Teacher" {
      DecideNotFound(decoded, roles, course, assignment, journal);
    } else if course.Some? {
      DecideCreateAssignment(decoded, roles, course.value, journal);
    } else {
      DecideCreateCourse(decoded, roles, assignment, journal);
    }
  }

  /** The failures of the view before any state is chosen. */
  lemma LaunchErrors(authenticated: bool, decoded: Option<Dict>, roles: seq<(string, string)>,
                     course: Option<int>, assignment: Option<int>, journal: Option<int>)
    ensures var r := GetLtiParamsFromJwt(authenticated, decoded, roles, course, assignment, journal);
            && (!authenticated ==> r.Success? && r.value == Responses.Unauthorized()
                                   && r.value.status == 401)
            && (authenticated && decoded.None? ==> r == Failure(InvalidToken))
            && ((authenticated && decoded.Some? && "roles" !in Keys(decoded.value))
                  ==> r == Failure(MissingKey(Str("roles"))))
            && ((authenticated && decoded.Some? && Field(decoded.value, "roles").Success?
                 && RoleNamed(roles, Field(decoded.value, "roles").value).Failure?)
                  ==> r == Failure(MissingKey(Field(decoded.value, "roles").value)))
  {
  }

  /**
   * A teacher's creation launch that lacks a parameter raises KeyError for the first
   * one missing in the order the view reads them.
   */
  lemma NewCourseMissingField(lti: Dict, i: nat)
    requires i < |RequiredFields(CreateCourse)|
    requires forall j :: 0 <= j < i ==> Field(lti, RequiredFields(CreateCourse)[j]).Success?
    requires RequiredFields(CreateCourse)[i] !in Keys(lti)
    ensures NewCoursePayload(lti) == Failure(MissingKey(Str(RequiredFields(CreateCourse)[i])))
  {
    ReadAllMissing(lti, RequiredFields(CreateCourse), i);
  }

  lemma NewAssignmentMissingField(lti: Dict, course: int, i: nat)
    requires i < |RequiredFields(CreateAssignment)|
    requires forall j :: 0 <= j < i ==> Field(lti, RequiredFields(CreateAssignment)[j]).Success?
    requires RequiredFields(CreateAssignment)[i] !in Keys(lti)
    ensures NewAssignmentPayload(lti, course) == Failure(MissingKey(Str(RequiredFields(CreateAssignment)[i])))
  {
    ReadAllMissing(lti, RequiredFields(CreateAssignment), i);
  }

  // ---- lti_launch ----

  /** `fullname.split(' ')[0]`: everything before the first space. */
  function FirstWord(s: string): (w: string)
    ensures w <= s
    ensures forall i :: 0 <= i < |w| ==> w[i] != ' '
    ensures |w| < |s| ==> s[|w|] == ' '
  {
    if s == [] || s[0] == ' ' then [] else [s[0]] + FirstWord(s[1..])
  }

  /** `fullname[len(firstname)+1:]`, empty when the slice starts past the end. */
  function LastName(s: string): string
  {
    if |FirstWord(s)| + 1 <= |s| then s[|FirstWord(s)| + 1..] else []
  }

  /**
   * The two halves of a name split at its first space give the name back; a name
   * without a space is all first name.
   */
  lemma NameSplitRecombines(s: string)
    ensures (exists i :: 0 <= i < |s| && s[i] == ' ') ==> s == FirstWord(s) + " " + LastName(s)
    ensures (forall i :: 0 <= i < |s| ==> s[i] != ' ') ==> FirstWord(s) == s && LastName(s) == []
  {
    var w := FirstWord(s);
    if |w| < |s| {
      SplitAtSpace(s, w);
    } else {
      assert w == s;
    }
  }

  lemma SplitAtSpace(s: string, w: string)
    requires w <= s && |w| < |s| && s[|w|] == ' '
    ensures s == w + " " + s[|w| + 1..]
  {
    assert s == s[..|w|] + [s[|w|]] + s[|w| + 1..];
  }

  /** The session tokens issued to a known user. */
  datatype Tokens = Tokens(access: string, refresh: string)

  const FullNameKey := "lis_person_name_full"
  const UserNameKey := "lis_person_sourcedid"
  const EmailKey := "lis_person_contact_email_primary"

  /** The query names sent for a launch by a user without an account. */
  function NewUserNames(params: seq<(string, string)>): (names: seq<string>)
    ensures |names| >= 2 && names[..2] == ["state", "lti_params"]
  {
    ["state", "lti_params"]
    + (if FullNameKey in Keys(params) then ["firstname", "lastname"] else [])
    + (if UserNameKey in Keys(params) then ["username"] else [])
    + (if EmailKey in Keys(params) then ["email"] else [])
  }

  /** The value each query name carries for a user without an account. */
  function NewUserValue(params: seq<(string, string)>, name: string, ltiJwt: string): string
  {
    if name == "state" then NoUser
    else if name == "lti_params" then ltiJwt
    else if name == "firstname" then FirstWord(Lookup(params, FullNameKey).GetOr(""))
    else if name == "lastname" then LastName(Lookup(params, FullNameKey).GetOr(""))
    else if name == "username" then Lookup(params, UserNameKey).GetOr("")
    else Lookup(params, EmailKey).GetOr("")
  }

  /** What each query name of a new user carries. */
  lemma NewUserValues(params: seq<(string, string)>, ltiJwt: string)
    ensures NewUserValue(params, "state", ltiJwt) == NoUser
    ensures NewUserValue(params, "lti_params", ltiJwt) == ltiJwt
    ensures NewUserValue(params, "firstname", ltiJwt) == FirstWord(Lookup(params, FullNameKey).GetOr(""))
    ensures NewUserValue(params, "lastname", ltiJwt) == LastName(Lookup(params, FullNameKey).GetOr(""))
    ensures NewUserValue(params, "username", ltiJwt) == Lookup(params, UserNameKey).GetOr("")
    ensures NewUserValue(params, "email", ltiJwt) == Lookup(params, EmailKey).GetOr("")
  {
    assert |"lti_params"| != |"state"| && |"firstname"| != |"lti_params"| && |"firstname"| != |"state"|;
    assert "lastname"[0] != "state"[0] && |"lastname"| != |"lti_params"| && |"lastname"| != |"firstname"|;
    assert "username"[0] != "state"[0] && |"username"| != |"lti_params"| && |"username"| != |"firstname"|;
    assert "username"[0] != "lastname"[0];
    assert "email"[0] != "state"[0] && |"email"| != |"lti_params"| && |"email"| != |"firstname"|;
    assert |"email"| != |"lastname"| && |"email"| != |"username"|;
  }

  /** No name occurs twice in the new-user query. */
  lemma NewUserNamesDistinct(params: seq<(string, string)>)
    ensures forall i, j :: 0 <= i < j < |NewUserNames(params)| ==> NewUserNames(params)[i] != NewUserNames(params)[j]
  {
  }

  /** Each query value is the one its name calls for. */
  ghost predicate Aligned(params: seq<(string, string)>, ltiJwt: string, names: seq<string>, values: seq<string>)
  {
    |names| == |values| && forall i :: 0 <= i < |names| ==> values[i] == NewUserValue(params, names[i], ltiJwt)
  }

  lemma AlignedAppend(params: seq<(string, string)>, ltiJwt: string, names: seq<string>, values: seq<string>,
                      more: seq<string>, moreValues: seq<string>)
    requires Aligned(params, ltiJwt, names, values) && Aligned(params, ltiJwt, more, moreValues)
    ensures Aligned(params, ltiJwt, names + more, values + moreValues)
  {
    forall i | 0 <= i < |names + more|
      ensures (values + moreValues)[i] == NewUserValue(params, (names + more)[i], ltiJwt)
    {
      if i >= |names| {
        assert (names + more)[i] == more[i - |names|];
      }
    }
  }

  lemma AlignedStart(params: seq<(string, string)>, ltiJwt: string)
    ensures Aligned(params, ltiJwt, ["state", "lti_params"], [NoUser, ltiJwt])
  {
    NewUserValues(params, ltiJwt);
  }

  /** The two name halves carry the split of the full name. */
  lemma AlignedFullName(params: seq<(string, string)>, ltiJwt: string, names: seq<string>, values: seq<string>,
                        firstname: string, lastname: string)
    requires Aligned(params, ltiJwt, names, values) && FullNameKey in Keys(params)
    requires firstname == FirstWord(Lookup(params, FullNameKey).value)
    requires lastname == LastName(Lookup(params, FullNameKey).value)
    ensures Aligned(params, ltiJwt, names + ["firstname", "lastname"], values + [firstname, lastname])
  {
    assert Aligned(params, ltiJwt, ["firstname", "lastname"], [firstname, lastname]) by {
      NewUserValues(params, ltiJwt);
    }
    AlignedAppend(params, ltiJwt, names, values, ["firstname", "lastname"], [firstname, lastname]);
  }

  /** The username and the email carry their launch parameter. */
  lemma AlignedField(params: seq<(string, string)>, ltiJwt: string, names: seq<string>, values: seq<string>,
                     name: string, key: string)
    requires Aligned(params, ltiJwt, names, values) && key in Keys(params)
    requires (name, key) == ("username", UserNameKey) || (name, key) == ("email", EmailKey)
    ensures Aligned(params, ltiJwt, names + [name], values + [Lookup(params, key).value])
  {
    NewUserValues(params, ltiJwt);
    assert Aligned(params, ltiJwt, [name], [Lookup(params, key).value]);
    AlignedAppend(params, ltiJwt, names, values, [name], [Lookup(params, key).value]);
  }

  /**
   * `lti_launch`: the query names and values of the redirect. `authenticated` is the
   * outcome of the OAuth signature check, `params` the POST parameters, `user` the
   * tokens of the account the launch belongs to (None when there is none) and
   * `ltiJwt` the encoded launch parameters.
   */
  method LtiLaunch(authenticated: bool, params: seq<(string, string)>, user: Option<Tokens>, ltiJwt: string)
    returns (names: seq<string>, values: seq<string>)
    ensures |names| == |values|
    ensures !authenticated ==> names == ["state"] && values == [BadAuth]
    ensures authenticated && user.Some? ==>
              && names == ["lti_params", "jwt_access", "jwt_refresh", "state"]
              && values == [ltiJwt, user.value.access, user.value.refresh, LoggedIn]
    ensures authenticated && user.None? ==>
              && names == NewUserNames(params)
              && forall i :: 0 <= i < |names| ==> values[i] == NewUserValue(params, names[i], ltiJwt)
  {
    if !authenticated {
      return ["state"], [BadAuth];
    }
    if user.Some? {
      return ["lti_params", "jwt_access", "jwt_refresh", "state"],
             [ltiJwt, user.value.access, user.value.refresh, LoggedIn];
    }
    names, values := NewUserQuery(params, ltiJwt);
  }

  /**
   * The query of a launch by a user without an account: the state and the launch,
   * then the name halves, the username and the email the launch carries.
   */
  method NewUserQuery(params: seq<(string, string)>, ltiJwt: string) returns (names: seq<string>, values: seq<string>)
    ensures |names| == |values|
    ensures names == NewUserNames(params)
    ensures forall i :: 0 <= i < |names| ==> values[i] == NewUserValue(params, names[i], ltiJwt)
  {
    names := ["state", "lti_params"];
    values := [NoUser, ltiJwt];
    AlignedStart(params, ltiJwt);
    if FullNameKey in Keys(params) {
      var fullname := Lookup(params, FullNameKey).value;
      var firstname := FirstWord(fullname);
      var lastname := if |firstname| + 1 <= |fullname| then fullname[|firstname| + 1..] else [];
      assert lastname == LastName(fullname);
      AlignedFullName(params, ltiJwt, names, values, firstname, lastname);
      names := names + ["firstname", "lastname"];
      values := values + [firstname, lastname];
    }
    assert names == ["state", "lti_params"] + (if FullNameKey in Keys(params) then ["firstname", "lastname"] else []);
    if UserNameKey in Keys(params) {
      var username := Lookup(params, UserNameKey).value;
      AlignedField(params, ltiJwt, names, values, "username", UserNameKey);
      names := names + ["username"];
      values := values + [username];
    }
    assert names == ["state", "lti_params"]
      + (if FullNameKey in Keys(params) then ["firstname", "lastname"] else [])
      + (if UserNameKey in Keys(params) then ["username"] else []);
    if EmailKey in Keys(params) {
      var email := Lookup(params, EmailKey).value;
      AlignedField(params, ltiJwt, names, values, "email", EmailKey);
      names := names + ["email"];
      values := values + [email];
    }
  }
}
