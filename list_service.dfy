/** ListService (app/services/listService.js): the HTTP client of the remote
    list API. The `$.ajax` transport is a function from a request to its
    response; every operation returns the requests it sent and how its
    promise settles. */
module Service {
  import opened Json
  import opened Records

  const BaseUrl := "https://apitrello.herokuapp.com"

  datatype Verb = GET | POST | PUT | DELETE

  /** The settings of one `$.ajax` call (each also declares the JSON content
      type); `authorization` is the `Authorization` header, absent on the
      two user endpoints. */
  datatype Request = Request(verb: Verb, url: string, authorization: Option<string>, body: Option<Json>)

  /** What the transport hands to `done` or to `fail`. */
  datatype Response = Done(data: Json) | Fail(status: int, statusText: string)

  /** A rejection reason: a `ListServiceError(code, message)`, or the raw
      failure payload that `register` passes on unchanged. */
  datatype Rejection = ServiceError(code: int, message: string) | RawFailure(status: int, statusText: string)

  /** How a returned promise settles. `Stuck`: the `done` callback threw a
      TypeError, so the promise never settles. */
  datatype Settled<T> = Resolved(value: T) | Rejected(reason: Rejection) | Stuck

  /** The requests an operation sent, and its settlement. */
  datatype Call<T> = Call(sent: seq<Request>, result: Settled<T>)

  /** `new List(element)`. The List class is not part of this model, so a
      decoded list is the payload it is built from (`None`: undefined). */
  datatype ListValue = ListOf(payload: Option<Json>)

  /** `err.message` of a rejection: a raw failure payload has none. */
  function MessageOf(r: Rejection): (m: Option<string>)
    ensures m.Some? <==> r.ServiceError?
    ensures r.ServiceError? ==> m == Some(r.message)
  {
    match r
    case ServiceError(_, message) => Some(message)
    case RawFailure(_, _) => None
  }

  /** `'Bearer ' + this._jwt`. */
  function Bearer(jwt: Json): string
  {
    "Bearer " + JsString(jwt)
  }

  /** Before any login `_jwt` is null, so the header reads 'Bearer null'. */
  lemma BearerBeforeLogin()
    ensures Bearer(JNull) == "Bearer null"
  {
  }

  /** `base + '/list/' + id`. */
  function ListUrl(id: int): string
  {
    BaseUrl + "/list/" + IntToString(id)
  }

  /** Per-id URLs differ for different ids, so each request names one list. */
  lemma ListUrlInjective(a: int, b: int)
    requires ListUrl(a) == ListUrl(b)
    ensures a == b
  {
    var prefix := BaseUrl + "/list/";
    assert IntToString(a) == ListUrl(a)[|prefix|..];
    assert IntToString(b) == ListUrl(b)[|prefix|..];
    IntToStringInjective(a, b);
  }

  function CredentialsBody(user: string, password: string): Json
  {
    JObj(map["username" := JStr(user), "password" := JStr(password)])
  }

  function NameBody(name: string): Json
  {
    JObj(map["name" := JStr(name)])
  }

  /** `data.map(element => new List(element))` on an array. */
  function ListsOf(xs: seq<Json>): (ls: seq<ListValue>)
    ensures |ls| == |xs|
    ensures forall i :: 0 <= i < |xs| ==> ls[i] == ListOf(Some(xs[i]))
  {
    if xs == [] then [] else [ListOf(Some(xs[0]))] + ListsOf(xs[1..])
  }

  /** The `done` callback of `getLists`: only an array has `map`; on any other
      body the callback throws and the promise never settles. */
  function DecodeLists(data: Json): (r: Settled<seq<ListValue>>)
    ensures r.Stuck? <==> !data.JArr?
    ensures !r.Rejected?
    ensures r.Resolved? ==> |r.value| == |data.items|
    ensures r.Resolved? ==> forall i :: 0 <= i < |data.items| ==> r.value[i] == ListOf(Some(data.items[i]))
  {
    if data.JArr? then Resolved(ListsOf(data.items)) else Stuck
  }

  /** The `done` callback of `getList`: `data.length == 0` gives null,
      anything else a List built from `data[0]`; a null body throws. */
  function DecodeGetList(data: Json): (r: Settled<Option<ListValue>>)
    ensures r.Stuck? <==> data.JNull?
    ensures !r.Rejected?
    ensures data.JArr? && r.Resolved? ==> (r.value.None? <==> data.items == [])
    ensures data.JArr? && data.items != [] ==> r == Resolved(Some(ListOf(Some(data.items[0]))))
  {
    if data.JNull? then Stuck
    else if LooseEqualsInt(Length(data), 0) then Resolved(None)
    else Resolved(Some(ListOf(At0(data))))
  }

  /** The `done` callback of `updateList`: `data.length == 1 && data[0] == 1`;
      a null body throws. */
  function DecodeUpdate(data: Json): (r: Settled<bool>)
    ensures r.Stuck? <==> data.JNull?
    ensures !r.Rejected?
    ensures data.JArr? ==> r == Resolved(|data.items| == 1 && LooseEqualsInt(Some(data.items[0]), 1))
    ensures data.JNum? || data.JBool? ==> r == Resolved(false)
  {
    if data.JNull? then Stuck
    else Resolved(LooseEqualsInt(Length(data), 1) && LooseEqualsInt(At0(data), 1))
  }

  /** An array body reports success exactly for one affected row. */
  lemma UpdateOneRow()
    ensures DecodeUpdate(JArr([JNum(1)])) == Resolved(true)
    ensures DecodeUpdate(JArr([JNum(0)])) == Resolved(false)
    ensures DecodeUpdate(JArr([])) == Resolved(false)
    ensures DecodeUpdate(JArr([JNum(1), JNum(1)])) == Resolved(false)
  {
  }

  /** The `fail` callback of every operation but `register`. */
  function FailWith<T>(status: int, statusText: string): (r: Settled<T>)
    ensures r.Rejected? && MessageOf(r.reason) == Some(statusText)
    ensures r.reason.ServiceError? && r.reason.code == status
  {
    Rejected(ServiceError(status, statusText))
  }

  /** Settle an authenticated call from its response and its decoder. */
  function Settle<T>(resp: Response, decode: Json -> Settled<T>): Settled<T>
  {
    match resp
    case Done(data) => decode(data)
    case Fail(status, statusText) => FailWith(status, statusText)
  }

  function RegisterRequest(user: string, password: string): Request
  {
    Request(POST, BaseUrl + "/users", None, Some(CredentialsBody(user, password)))
  }

  function LoginRequest(user: string, password: string): Request
  {
    Request(POST, BaseUrl + "/users/login", None, Some(CredentialsBody(user, password)))
  }

  /** `register(user, password)`: resolves the User built from the response;
      a failure rejects with the raw payload, not a ListServiceError. */
  function Register(user: string, password: string, transport: Request -> Response): (c: Call<User>)
    ensures c.sent == [RegisterRequest(user, password)]
    ensures c.sent[0].authorization.None?
    ensures transport(c.sent[0]).Done? ==> c.result == Resolved(NewUser(Some(transport(c.sent[0]).data)))
    ensures transport(c.sent[0]).Fail? ==> c.result.Rejected? && c.result.reason.RawFailure?
    ensures c.result.Rejected? ==> MessageOf(c.result.reason).None?
  {
    var req := RegisterRequest(user, password);
    match transport(req)
    case Done(data) => Call([req], Resolved(NewUser(Some(data))))
    case Fail(status, statusText) => Call([req], Rejected(RawFailure(status, statusText)))
  }

  class ListService {
    /** `_jwt`: the token of the last successful login, null before. */
    var jwt: Json
    /** The `token` property the controller assigns at startup. Nothing in
        the service reads it. */
    var token: Option<string>

    constructor ()
      ensures jwt == JNull && token == None
    {
      jwt := JNull;
      token := None;
    }

    /** The header every authenticated request carries. */
    function Auth(): Option<string>
      reads this
    {
      Some(Bearer(jwt))
    }

    /** `login(user, password)`: on success store the response in `_jwt` and
        resolve with it; on failure leave `_jwt` alone and reject with
        ListServiceError(status, statusText). */
    method Login(user: string, password: string, transport: Request -> Response) returns (c: Call<Json>)
      modifies this`jwt
      ensures c.sent == [LoginRequest(user, password)]
      ensures transport(c.sent[0]).Done? ==> jwt == transport(c.sent[0]).data && c.result == Resolved(jwt)
      ensures transport(c.sent[0]).Fail? ==> jwt == old(jwt)
      ensures transport(c.sent[0]).Fail? ==>
                c.result == FailWith(transport(c.sent[0]).status, transport(c.sent[0]).statusText)
    {
      var req := LoginRequest(user, password);
      var resp := transport(req);
      match resp
      case Done(data) =>
        jwt := data;
        c := Call([req], Resolved(jwt));
      case Fail(status, statusText) =>
        c := Call([req], FailWith(status, statusText));
    }

    /** `getLists()`: GET /list; order and length of the body are kept. */
    function GetLists(transport: Request -> Response): (c: Call<seq<ListValue>>)
      reads this
      ensures c.sent == [Request(GET, BaseUrl + "/list", Auth(), None)]
      ensures transport(c.sent[0]).Done? ==> c.result == DecodeLists(transport(c.sent[0]).data)
      ensures transport(c.sent[0]).Fail? ==>
                c.result == FailWith(transport(c.sent[0]).status, transport(c.sent[0]).statusText)
    {
      var req := Request(GET, BaseUrl + "/list", Auth(), None);
      Call([req], Settle(transport(req), DecodeLists))
    }

    /** `getList(id)`: GET /list/id; null for an empty body, else element 0. */
    function GetList(id: int, transport: Request -> Response): (c: Call<Option<ListValue>>)
      reads this
      ensures c.sent == [Request(GET, ListUrl(id), Auth(), None)]
      ensures transport(c.sent[0]).Done? ==> c.result == DecodeGetList(transport(c.sent[0]).data)
      ensures transport(c.sent[0]).Fail? ==>
                c.result == FailWith(transport(c.sent[0]).status, transport(c.sent[0]).statusText)
    {
      var req := Request(GET, ListUrl(id), Auth(), None);
      Call([req], Settle(transport(req), DecodeGetList))
    }

    /** `addList(name)`: POST /list with {name}; resolves the List built from
        the whole body. */
    function AddList(name: string, transport: Request -> Response): (c: Call<ListValue>)
      reads this
      ensures c.sent == [Request(POST, BaseUrl + "/list", Auth(), Some(NameBody(name)))]
      ensures transport(c.sent[0]).Done? ==> c.result == Resolved(ListOf(Some(transport(c.sent[0]).data)))
      ensures transport(c.sent[0]).Fail? ==>
                c.result == FailWith(transport(c.sent[0]).status, transport(c.sent[0]).statusText)
    {
      var req := Request(POST, BaseUrl + "/list", Auth(), Some(NameBody(name)));
      Call([req], Settle(transport(req), (data: Json) => Resolved(ListOf(Some(data)))))
    }

    /** `updateList(id, name)`: PUT /list/id with {name}; resolves whether
        exactly one row was affected. */
    function UpdateList(id: int, name: string, transport: Request -> Response): (c: Call<bool>)
      reads this
      ensures c.sent == [Request(PUT, ListUrl(id), Auth(), Some(NameBody(name)))]
      ensures transport(c.sent[0]).Done? ==> c.result == DecodeUpdate(transport(c.sent[0]).data)
      ensures transport(c.sent[0]).Fail? ==>
                c.result == FailWith(transport(c.sent[0]).status, transport(c.sent[0]).statusText)
    {
      var req := Request(PUT, ListUrl(id), Auth(), Some(NameBody(name)));
      Call([req], Settle(transport(req), DecodeUpdate))
    }

    /** `deleteList(id)`: DELETE /list/id; resolves with nothing whatever the
        body. */
    function DeleteList(id: int, transport: Request -> Response): (c: Call<()>)
      reads this
      ensures c.sent == [Request(DELETE, ListUrl(id), Auth(), None)]
      ensures c.result.Resolved? <==> transport(c.sent[0]).Done?
      ensures c.result.Rejected? <==> transport(c.sent[0]).Fail?
    {
      var req := Request(DELETE, ListUrl(id), Auth(), None);
      Call([req], Settle(transport(req), (data: Json) => Resolved(())))
    }

    /** `addTask`, `getListTasks`, `getTask`, `updateTask` and
        `deleteListTasks` have empty bodies: no request is sent and the
        promise resolves to undefined. */
    function EmptyStub(): (c: Call<()>)
      ensures c.sent == [] && c.result == Resolved(())
    {
      Call([], Resolved(()))
    }
  }

  /** Every authenticated operation sends the header built from `_jwt` as it
      is when the call is made. */
  lemma AuthenticatedCallsCarryJwt(s: ListService, id: int, name: string, transport: Request -> Response)
    ensures s.GetLists(transport).sent[0].authorization == Some(Bearer(s.jwt))
    ensures s.GetList(id, transport).sent[0].authorization == Some(Bearer(s.jwt))
    ensures s.AddList(name, transport).sent[0].authorization == Some(Bearer(s.jwt))
    ensures s.UpdateList(id, name, transport).sent[0].authorization == Some(Bearer(s.jwt))
    ensures s.DeleteList(id, transport).sent[0].authorization == Some(Bearer(s.jwt))
  {
  }
}
