/**
 * The participation client of the Vue code (src/vue/src/api/participation.js): the
 * REST-style `participations` resource, addressed through the generic transport
 * entry points.
 */
module Participation {
  import opened Wrappers
  import opened Json
  import Http
  import Text

  /** `get('participations', {course_id: id})`, resolving to `data.participants`. */
  function GetEnrolled(id: Value): (c: Http.Call)
    ensures c.request == Http.Request(Http.Get, "participations", Http.Body([("course_id", id)]))
    ensures forall x :: Http.Resolve(c, Http.Plant(["data", "participants"], x)) == Success(x)
  {
    var c := Http.Call(Http.Request(Http.Get, "participations", Http.Body([("course_id", id)])), ["data", "participants"]);
    Http.ResolvesPlanted(c);
    c
  }

  /** `create('participations', data)`: the body is passed through unchanged; resolves to `data.participant`. */
  function Create(data: Value): (c: Http.Call)
    ensures c.request == Http.Request(Http.Create, "participations", Some(data))
    ensures forall x :: Http.Resolve(c, Http.Plant(["data", "participant"], x)) == Success(x)
  {
    var c := Http.Call(Http.Request(Http.Create, "participations", Some(data)), ["data", "participant"]);
    Http.ResolvesPlanted(c);
    c
  }

  /** `update('participations/' + id, data)`, resolving to `data.participant`. */
  function Update(id: Value, data: Value): (c: Http.Call)
    ensures c.request.verb == Http.Update && c.request.argument == Some(data)
    ensures Text.StripAffixes(c.request.path, "participations/", "") == Some(JsString(id))
    ensures forall x :: Http.Resolve(c, Http.Plant(["data", "participant"], x)) == Success(x)
  {
    Text.StripAffixesOfConcat("participations/", JsString(id), "");
    assert "participations/" + JsString(id) + "" == "participations/" + JsString(id);
    var c := Http.Call(Http.Request(Http.Update, "participations/" + JsString(id), Some(data)), ["data", "participant"]);
    Http.ResolvesPlanted(c);
    c
  }

  /** `delete('participations/' + cID, {user_id: uID})`, resolving to the whole `data`. */
  function Delete(cID: Value, uID: Value): (c: Http.Call)
    ensures c.request.verb == Http.Delete && c.request.argument == Http.Body([("user_id", uID)])
    ensures Text.StripAffixes(c.request.path, "participations/", "") == Some(JsString(cID))
    ensures forall response :: Http.Resolve(c, response) == Http.Property(response, "data")
  {
    Text.StripAffixesOfConcat("participations/", JsString(cID), "");
    assert "participations/" + JsString(cID) + "" == "participations/" + JsString(cID);
    Http.Call(Http.Request(Http.Delete, "participations/" + JsString(cID), Http.Body([("user_id", uID)])), ["data"])
  }

  /** `get('participations/unenrolled', {course_id: id})`, resolving to `data.participants`. */
  function GetUnenrolled(id: Value): (c: Http.Call)
    ensures c.request == Http.Request(Http.Get, "participations/unenrolled", Http.Body([("course_id", id)]))
    ensures forall x :: Http.Resolve(c, Http.Plant(["data", "participants"], x)) == Success(x)
  {
    var c := Http.Call(Http.Request(Http.Get, "participations/unenrolled", Http.Body([("course_id", id)])),
                       ["data", "participants"]);
    Http.ResolvesPlanted(c);
    c
  }

  /**
   * The unenrolled listing is a sub-path of the resource, so an update or delete
   * addressed to the course id "unenrolled" hits the same path.
   */
  lemma UnenrolledPathCollides(data: Value, uID: Value)
    ensures Update(Str("unenrolled"), data).request.path == GetUnenrolled(Str("x")).request.path
    ensures Delete(Str("unenrolled"), uID).request.path == GetUnenrolled(Str("x")).request.path
  {
  }

  /** A numeric participation id reaches the server as its decimal digits after the slash. */
  lemma ParticipationIdRoundTrip(id: nat, data: Value)
    ensures Text.StripAffixes(Update(Num(id), data).request.path, "participations/", "")
              == Some(Text.NatToDecimal(id))
    ensures Text.ParseNat(Text.NatToDecimal(id)) == Some(id)
  {
    Text.ParseNatDecimal(id);
  }
}
