/**
 * The request logic of the example server: the authorization check in front
 * of `/cats` and the in-memory CRUD controller behind it.
 */
module Server {
  import opened Wrappers
  import opened Strings

  /** Request headers by lower-cased name, as the web framework presents them. */
  type Headers = map<string, string>

  /** The token a request's `authorization` header must contain. */
  const SecretToken: string := "secret_token"

  /** The status `sendStatus(401)` replies with. */
  const Unauthorized: int := 401

  /** What the authorization middleware does with a request. */
  datatype AuthOutcome = Next | Reject(status: int)

  /**
   * `authMiddleware`: passes the request on when the `authorization` header is
   * present and non-empty and contains the token anywhere; answers 401 otherwise.
   */
  function Authorize(headers: Headers): (r: AuthOutcome)
    ensures r == Next <==> "authorization" in headers &&
                           exists i :: OccursAt(headers["authorization"], SecretToken, i)
    ensures r != Next ==> r == Reject(Unauthorized)
  {
    match Get(headers, "authorization")
    case Some(authorization) =>
      IncludesIffOccurs(authorization, SecretToken);
      if authorization != "" && Includes(authorization, SecretToken) then Next else Reject(Unauthorized)
    case None => Reject(Unauthorized)
  }

  /** A reply body: the resource list, one resource, or the status text. */
  datatype Payload<T> = Items(items: seq<T>) | Item(item: T) | Text(text: string)

  datatype Reply<T> = Reply(status: int, payload: Payload<T>)

  /** The requests the CRUD controller routes: GET and POST on its root. */
  datatype Request<T> = HttpGet | HttpPost(body: T)

  /** `getCrudController()`: a router over a `resources` array of its own. */
  class ResourceController<T> {
    var resources: seq<T>

    /** A new controller starts with no resources. */
    constructor ()
      ensures resources == []
    {
      resources := [];
    }

    /** GET `/`: replies with every resource, in insertion order, and changes nothing. */
    method List() returns (reply: Reply<T>)
      ensures reply == Reply(200, Items(resources))
    {
      reply := Reply(200, Items(resources));
    }

    /** POST `/`: appends the body to the resources and echoes it with status 201. */
    method Create(body: T) returns (reply: Reply<T>)
      modifies this
      ensures resources == old(resources) + [body]
      ensures |resources| == |old(resources)| + 1 && resources[|resources| - 1] == body
      ensures forall i :: 0 <= i < |old(resources)| ==> resources[i] == old(resources)[i]
      ensures reply == Reply(201, Item(body))
    {
      resources := resources + [body];
      reply := Reply(201, Item(body));
    }

    /**
     * A request to `/cats`: the authorization middleware first, then the
     * controller. A rejected request gets 401 and never reaches the controller.
     */
    method Handle(headers: Headers, request: Request<T>) returns (reply: Reply<T>)
      modifies this
      ensures Authorize(headers) != Next ==>
        reply == Reply(Unauthorized, Text("Unauthorized")) && resources == old(resources)
      ensures Authorize(headers) == Next && request.HttpGet? ==>
        reply == Reply(200, Items(old(resources))) && resources == old(resources)
      ensures Authorize(headers) == Next && request.HttpPost? ==>
        reply == Reply(201, Item(request.body)) && resources == old(resources) + [request.body]
    {
      if Authorize(headers) != Next {
        reply := Reply(Unauthorized, Text("Unauthorized"));
      } else if request.HttpGet? {
        reply := List();
      } else {
        reply := Create(request.body);
      }
    }
  }

  /** Two POSTs on a new controller, then a GET: both bodies, in the order posted. */
  method PostTwiceThenList<T>(first: T, second: T) returns (reply: Reply<T>)
    ensures reply == Reply(200, Items([first, second]))
  {
    var controller := new ResourceController<T>();
    var created := controller.Create(first);
    created := controller.Create(second);
    assert controller.resources == [first, second];
    reply := controller.List();
  }
}
