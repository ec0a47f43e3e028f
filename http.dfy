/**
 * The request primitive the domain clients of the Vue code call (`@/api/auth`), kept
 * abstract: a client method is modelled by the request it hands to the transport and
 * by the chain of property reads its `.then` applies to the response.
 */
module Http {
  import opened Wrappers
  import opened Json

  /** The transport entry points the clients use. */
  datatype Verb =
    | AuthenticatedGet
    | AuthenticatedPost
    | AuthenticatedFilePost
    | Get
    | Create
    | Update
    | Delete

  /** One transport call: the entry point, the path and the optional second argument (body or query). */
  datatype Request = Request(verb: Verb, path: string, argument: Option<Value>)

  /** What a client method does: the request, and the fields it reads from the response in turn. */
  datatype Call = Call(request: Request, unwrap: seq<string>)

  /** Reading a property of `undefined` or `null` throws a TypeError. */
  datatype JsError = TypeError(property: string)

  /**
   * `v.key`: an object yields the field or `undefined`; `undefined` and `null` throw.
   * Other values yield `undefined` for the field names the clients read.
   */
  function Property(v: Value, key: string): Result<Value, JsError>
  {
    match v
    case Undefined => Failure(TypeError(key))
    case Null => Failure(TypeError(key))
    case Obj(fields) => Success(Lookup(fields, key).GetOr(Undefined))
    case _ => Success(Undefined)
  }

  /** `v.f1.f2...`: the property reads of a `.then` projection, in order. */
  function Unwrap(v: Value, path: seq<string>): Result<Value, JsError>
    decreases |path|
  {
    if path == [] then Success(v)
    else
      var next :- Property(v, path[0]);
      Unwrap(next, path[1..])
  }

  /** What the promise returned by a client method resolves to for a given response. */
  function Resolve(c: Call, response: Value): Result<Value, JsError>
  {
    Unwrap(response, c.unwrap)
  }

  /** The smallest response that holds `x` under the fields `path`. */
  function Plant(path: seq<string>, x: Value): Value
    decreases |path|
  {
    if path == [] then x else Obj([(path[0], Plant(path[1..], x))])
  }

  /** Reading back the fields a value was planted under gives the value. */
  lemma {:induction false} UnwrapPlant(path: seq<string>, x: Value)
    ensures Unwrap(Plant(path, x), path) == Success(x)
    decreases |path|
  {
    if path != [] {
      UnwrapPlant(path[1..], x);
    }
  }

  /** A client resolves to exactly the field it unwraps, for every response that carries it. */
  lemma ResolvesPlanted(c: Call)
    ensures forall x :: Resolve(c, Plant(c.unwrap, x)) == Success(x)
  {
    forall x ensures Resolve(c, Plant(c.unwrap, x)) == Success(x) {
      UnwrapPlant(c.unwrap, x);
    }
  }

  /** A two-field projection of a response holding `x` under its first field reads the second field of `x`. */
  lemma UnwrapSecond(outer: string, inner: string, x: Value)
    ensures Unwrap(Plant([outer], x), [outer, inner]) == Property(x, inner)
  {
    LookupFirst([(outer, x)], outer);
    assert Property(Plant([outer], x), outer) == Success(x);
    assert [outer, inner][1..] == [inner];
    assert Unwrap(x, [inner]) == Property(x, inner) by {
      assert [inner][1..] == [];
    }
  }

  /**
   * A projection through two or more fields rejects with a TypeError when the
   * response lacks the first one.
   */
  lemma UnwrapMissingOuter(fields: Dict, path: seq<string>)
    requires |path| >= 2 && path[0] !in Keys(fields)
    ensures Unwrap(Obj(fields), path).Failure?
  {
    assert Unwrap(Undefined, path[1..]).Failure?;
  }

  /** An object literal sent as a body or a query. */
  function Body(fields: Dict): Option<Value>
  {
    Some(Obj(fields))
  }

  /** The keys of the body or query a request sends (empty when it sends none). */
  function ArgumentKeys(r: Request): seq<string>
  {
    match r.argument
    case Some(Obj(fields)) => Keys(fields)
    case _ => []
  }

  /** The value a request sends under `key`, if any. */
  function ArgumentField(r: Request, key: string): Option<Value>
  {
    match r.argument
    case Some(Obj(fields)) => Lookup(fields, key)
    case _ => None
  }
}
