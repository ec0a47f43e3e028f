/**
 * The JSON response helpers of the Django views (src/django/VLE/views/responses.py):
 * each helper fixes a status code and a `result` message, and every body is the
 * dict `{'result': message, 'description': description, **payload}`.
 */
module Responses {
  import opened Wrappers
  import opened Json
  import Text

  /** A `JsonResponse`: the status code and the serialized dict, in key order. */
  datatype JsonResponse = JsonResponse(status: int, body: Dict)

  // Default arguments of the helpers; each helper below takes its own as the default.
  const SuccessMessage := "success"
  const NoContentDescription := "Request succeeded."
  const BadRequestDescription := "Your browser performed a bad request."
  const UnauthorizedDescription := "You are not authenticated."
  const ForbiddenDescription := "You have no access to this page"
  const NotFoundDescription := "The page or file you requested was not found."
  const InternalErrorDescription := "Oops! The server experienced internal hiccups."

  /**
   * `response(status, message, description, payload)`. The status never depends on
   * the payload; `result` and `description` come first, followed by the payload's
   * other keys in order, and a payload key named `result` or `description` overrides
   * the helper's value in place.
   */
  function Response(status: int, message: Value, description: Value := Str(""), payload: Dict := []): (r: JsonResponse)
    ensures r.status == status
    ensures |Keys(r.body)| >= 2 && Keys(r.body)[..2] == ["result", "description"]
    ensures forall k :: k in Keys(r.body) <==> k == "result" || k == "description" || k in Keys(payload)
    ensures "result" !in Keys(payload) ==> Lookup(r.body, "result") == Some(message)
    ensures "description" !in Keys(payload) ==> Lookup(r.body, "description") == Some(description)
    ensures Unique(payload) ==> forall k :: k in Keys(payload) ==> Lookup(r.body, k) == Lookup(payload, k)
    ensures Unique(r.body)
  {
    var base := [("result", message), ("description", description)];
    MergeKeys(base, payload);
    MergeLookup(base, payload);
    MergeUnique(base, payload);
    JsonResponse(status, Merge(base, payload))
  }

  /** `success`: status 200, and the empty description unless the payload sets one. */
  function Success(message: Value := Str(SuccessMessage), payload: Dict := []): (r: JsonResponse)
    ensures r.status == 200
    ensures forall k :: k in Keys(r.body) <==> k == "result" || k == "description" || k in Keys(payload)
    ensures "result" !in Keys(payload) ==> Lookup(r.body, "result") == Some(message)
    ensures "description" !in Keys(payload) ==> Lookup(r.body, "description") == Some(Str(""))
    ensures Unique(payload) ==> forall k :: k in Keys(payload) ==> Lookup(r.body, k) == Lookup(payload, k)
  {
    Response(200, message, Str(""), payload)
  }

  /** `created`: status 201, otherwise as `success`. */
  function Created(message: Value := Str(SuccessMessage), payload: Dict := []): (r: JsonResponse)
    ensures r.status == 201
    ensures forall k :: k in Keys(r.body) <==> k == "result" || k == "description" || k in Keys(payload)
    ensures "result" !in Keys(payload) ==> Lookup(r.body, "result") == Some(message)
    ensures "description" !in Keys(payload) ==> Lookup(r.body, "description") == Some(Str(""))
    ensures Unique(payload) ==> forall k :: k in Keys(payload) ==> Lookup(r.body, k) == Lookup(payload, k)
  {
    Response(201, message, Str(""), payload)
  }

  /** A helper without payload: the body holds exactly `result` and `description`. */
  function ErrorResponse(status: int, message: string, description: string): (r: JsonResponse)
    ensures r.status == status
    ensures r.body == [("result", Str(message)), ("description", Str(description))]
  {
    Response(status, Str(message), Str(description), [])
  }

  function NoContent(description: string := NoContentDescription): (r: JsonResponse)
    ensures r.status == 204
    ensures r.body == [("result", Str("No Content")), ("description", Str(description))]
  {
    ErrorResponse(204, "No Content", description)
  }

  function BadRequest(description: string := BadRequestDescription): (r: JsonResponse)
    ensures r.status == 400
    ensures r.body == [("result", Str("Bad Request")), ("description", Str(description))]
  {
    ErrorResponse(400, "Bad Request", description)
  }

  function Unauthorized(description: string := UnauthorizedDescription): (r: JsonResponse)
    ensures r.status == 401
    ensures r.body == [("result", Str("Authentication Error")), ("description", Str(description))]
  {
    ErrorResponse(401, "Authentication Error", description)
  }

  function Forbidden(description: string := ForbiddenDescription): (r: JsonResponse)
    ensures r.status == 403
    ensures r.body == [("result", Str("Forbidden")), ("description", Str(description))]
  {
    ErrorResponse(403, "Forbidden", description)
  }

  /** `not_found`: the description is always followed by " not found.", the default one included. */
  function NotFound(description: string := NotFoundDescription): (r: JsonResponse)
    ensures r.status == 404
    ensures r.body == [("result", Str("Not Found")), ("description", Str(description + " not found."))]
  {
    ErrorResponse(404, "Not Found", description + " not found.")
  }

  function InternalServerError(description: string := InternalErrorDescription): (r: JsonResponse)
    ensures r.status == 500
    ensures r.body == [("result", Str("500 Internal Server Error")), ("description", Str(description))]
  {
    ErrorResponse(500, "500 Internal Server Error", description)
  }

  /** The description `keyerror` passes to `bad_request`, naming the tuple of missing keys. */
  function KeyErrorDescription(keys: seq<string>): string
  {
    if |keys| == 1
    then "Field " + Text.PyTupleRepr(keys) + " is required but is missing."
    else "Fields " + Text.PyTupleRepr(keys) + " are required but one or more are missing."
  }

  /**
   * `keyerror(*keys)`: a 400 "Bad Request" whose description says "Field" for exactly
   * one key and "Fields" for any other number, and names every missing key in repr.
   */
  function KeyError(keys: seq<string>): (r: JsonResponse)
    ensures r.status == 400
    ensures Keys(r.body) == ["result", "description"] && r.body[0].1 == Str("Bad Request")
    ensures r.body[1].1.Str?
    ensures Text.StartsWith(r.body[1].1.s, "Field ") <==> |keys| == 1
    ensures Text.StartsWith(r.body[1].1.s, "Fields ") <==> |keys| != 1
    ensures forall k :: k in keys ==> Text.Contains(r.body[1].1.s, Text.PyRepr(k))
  {
    KeyErrorWording(keys);
    KeyErrorNamesKeys(keys);
    BadRequest(KeyErrorDescription(keys))
  }

  /** The description says "Field" for exactly one key and "Fields" for any other number. */
  lemma KeyErrorWording(keys: seq<string>)
    ensures Text.StartsWith(KeyErrorDescription(keys), "Field ") <==> |keys| == 1
    ensures Text.StartsWith(KeyErrorDescription(keys), "Fields ") <==> |keys| != 1
  {
    Wording(Text.PyTupleRepr(keys), " is required but is missing.", " are required but one or more are missing.");
  }

  /** "Field " and "Fields " part at their sixth character, whatever follows. */
  lemma Wording(t: string, one: string, many: string)
    ensures Text.StartsWith("Field " + t + one, "Field ") && !Text.StartsWith("Field " + t + one, "Fields ")
    ensures Text.StartsWith("Fields " + t + many, "Fields ") && !Text.StartsWith("Fields " + t + many, "Field ")
  {
    Text.StartsWithConcat("Field ", t + one);
    assert "Field " + t + one == "Field " + (t + one);
    Text.StartsWithConcat("Fields ", t + many);
    assert "Fields " + t + many == "Fields " + (t + many);
    assert ("Field " + t + one)[5] == ' ' && ("Fields " + t + many)[5] == 's';
  }

  /** The repr of every missing key occurs in the description. */
  lemma KeyErrorNamesKeys(keys: seq<string>)
    ensures forall k :: k in keys ==> Text.Contains(KeyErrorDescription(keys), Text.PyRepr(k))
  {
    forall k | k in keys ensures Text.Contains(KeyErrorDescription(keys), Text.PyRepr(k)) {
      KeyErrorNamesKey(keys, k);
    }
  }

  lemma KeyErrorNamesKey(keys: seq<string>, k: string)
    requires k in keys
    ensures Text.Contains(KeyErrorDescription(keys), Text.PyRepr(k))
  {
    var t := Text.PyTupleRepr(keys);
    Text.PyTupleReprNamesEach(keys, k);
    if |keys| == 1 {
      Text.ContainsInConcat("Field ", t, Text.PyRepr(k));
      Text.ContainsInConcat("Field " + t, " is required but is missing.", Text.PyRepr(k));
    } else {
      Text.ContainsInConcat("Fields ", t, Text.PyRepr(k));
      Text.ContainsInConcat("Fields " + t, " are required but one or more are missing.", Text.PyRepr(k));
    }
  }

  /** `success()` without arguments: 200 with exactly `result` "success" and an empty description. */
  lemma DefaultSuccess()
    ensures Success().status == 200
    ensures Success().body == [("result", Str("success")), ("description", Str(""))]
  {
  }

  /** `created()` without arguments: 201, otherwise as `success()`. */
  lemma DefaultCreated()
    ensures Created().status == 201
    ensures Created().body == [("result", Str("success")), ("description", Str(""))]
  {
  }

  /** `no_content()` reads "Request succeeded.". */
  lemma DefaultNoContentDescription()
    ensures NoContent().body == [("result", Str("No Content")), ("description", Str("Request succeeded."))]
  {
  }

  /** `bad_request()` reads "Your browser performed a bad request.". */
  lemma DefaultBadRequestDescription()
    ensures BadRequest().body
              == [("result", Str("Bad Request")), ("description", Str("Your browser performed a bad request."))]
  {
  }

  /** `unauthorized()` reads "You are not authenticated.". */
  lemma DefaultUnauthorizedDescription()
    ensures Unauthorized().body
              == [("result", Str("Authentication Error")), ("description", Str("You are not authenticated."))]
  {
  }

  /** `forbidden()` reads "You have no access to this page", without a full stop. */
  lemma DefaultForbiddenDescription()
    ensures Forbidden().body
              == [("result", Str("Forbidden")), ("description", Str("You have no access to this page"))]
  {
  }

  /** `internal_server_error()` reads "Oops! The server experienced internal hiccups.". */
  lemma DefaultInternalErrorDescription()
    ensures InternalServerError().body
              == [("result", Str("500 Internal Server Error")),
                  ("description", Str("Oops! The server experienced internal hiccups."))]
  {
  }

  /** The default `not_found()` reads "... was not found. not found.". */
  lemma DefaultNotFoundDescription()
    ensures Lookup(NotFound().body, "description")
              == Some(Str("The page or file you requested was not found. not found."))
  {
    assert NotFoundDescription + " not found." == "The page or file you requested was not found. not found.";
    var body := NotFound().body;
    assert body[1..] == [("description", Str(NotFoundDescription + " not found."))];
    assert Lookup(body, "description") == Lookup(body[1..], "description");
  }
}
