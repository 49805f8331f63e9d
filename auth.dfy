/** The authentication middleware of `src/middleware/auth.ts`: a chain of methods
    tried in order, where every method either decides (calling `next` once) or throws;
    a thrown error is swallowed while methods remain and handed to `next` when it came
    from the last one.  Calls of `next` are returned as a log. */
module Auth {
  import opened Common

  const TOKEN := "token"
  const API_KEY := "apiKey"
  const NONE := "none"

  /** An `ApiError(message, status)`. */
  datatype ApiError = ApiError(message: string, status: int)

  const NOT_IMPLEMENTED := ApiError("Not Implemented", 501)
  const AUTH_FAILED := ApiError("Authentication failed. Please authenticate yourself.", 401)
  const KEY_NOT_FOUND := ApiError("API Key not found", 401)

  /** One call of `next`: `next()` or `next(error)`. */
  datatype NextCall = Next | NextWithError(error: ApiError)

  /** The parts of a request the middleware reads: the `x-api-key` header and `query.apiKey`. */
  datatype Request = Request(apiKeyHeader: Option<string>, apiKeyQuery: Option<string>)

  /** The key `apiKeyAuth` checks: the header when it is non-empty, the query parameter otherwise. */
  function ApiKeyOf(request: Request): (key: Option<string>)
    ensures Truthy(request.apiKeyHeader) ==> key == request.apiKeyHeader
    ensures !Truthy(request.apiKeyHeader) ==> key == request.apiKeyQuery
  {
    if Truthy(request.apiKeyHeader) then request.apiKeyHeader else request.apiKeyQuery
  }

  /** `apiKeyAuth`: passes (after calling `next()`) exactly when the key is non-empty and
      equals `MASTER_API_KEY`; otherwise it throws "API Key not found" with status 401. */
  function ApiKeyAuth(request: Request, masterKey: Option<string>): (r: Outcome<ApiError>)
    ensures r.Pass? <==> Truthy(ApiKeyOf(request)) && ApiKeyOf(request) == masterKey
    ensures r.Fail? ==> r.error == KEY_NOT_FOUND
    ensures !Truthy(masterKey) ==> r.Fail?
  {
    var key := ApiKeyOf(request);
    if Truthy(key) && key == masterKey then Pass else Fail(KEY_NOT_FOUND)
  }

  /** What trying one method does: it decides, with the one `next` call it made, or it throws. */
  datatype Attempt = Decided(call: NextCall) | Threw(error: ApiError)

  /** The `switch` on one method. */
  function TryMethod(name: string, request: Request, masterKey: Option<string>): (a: Attempt)
    ensures name == TOKEN ==> a == Threw(NOT_IMPLEMENTED)
    ensures name == NONE ==> a == Decided(Next)
    ensures name != TOKEN && name != API_KEY && name != NONE ==> a == Decided(NextWithError(AUTH_FAILED))
    ensures name == API_KEY ==>
      a == (if ApiKeyAuth(request, masterKey).Pass? then Decided(Next) else Threw(KEY_NOT_FOUND))
  {
    if name == TOKEN then Threw(NOT_IMPLEMENTED)
    else if name == API_KEY then
      match ApiKeyAuth(request, masterKey)
      case Pass => Decided(Next)
      case Fail(e) => Threw(e)
    else if name == NONE then Decided(Next)
    else Decided(NextWithError(AUTH_FAILED))
  }

  /** Reference definition of the chain of `src/middleware/auth.ts:36-65`: the `next`
      calls it makes for `methods`. */
  function Chain(methods: seq<string>, request: Request, masterKey: Option<string>): seq<NextCall>
  {
    if methods == [] then []
    else match TryMethod(methods[0], request, masterKey)
      case Decided(call) => [call]
      case Threw(e) => if |methods| == 1 then [NextWithError(e)] else Chain(methods[1..], request, masterKey)
  }

  /** How many methods the chain tries: up to and including the first that decides. */
  function TriedCount(methods: seq<string>, request: Request, masterKey: Option<string>): (n: nat)
    ensures n <= |methods|
    ensures methods != [] ==> n >= 1
  {
    if methods == [] then 0
    else if TryMethod(methods[0], request, masterKey).Decided? then 1
    else 1 + TriedCount(methods[1..], request, masterKey)
  }

  /** `next` is called exactly once for a non-empty list and never for an empty one. */
  lemma {:induction false} ChainCallsNextOnce(methods: seq<string>, request: Request, masterKey: Option<string>)
    ensures |Chain(methods, request, masterKey)| == (if methods == [] then 0 else 1)
  {
    if methods != [] && TryMethod(methods[0], request, masterKey).Threw? && |methods| > 1 {
      ChainCallsNextOnce(methods[1..], request, masterKey);
    }
  }

  /** The first method that decides settles the request; the methods before it threw and
      their errors are swallowed. */
  lemma {:induction false} FirstDecidingMethodWins(methods: seq<string>, request: Request,
                                                   masterKey: Option<string>, k: nat)
    requires k < |methods|
    requires forall j | 0 <= j < k :: TryMethod(methods[j], request, masterKey).Threw?
    requires TryMethod(methods[k], request, masterKey).Decided?
    ensures Chain(methods, request, masterKey) == [TryMethod(methods[k], request, masterKey).call]
    ensures TriedCount(methods, request, masterKey) == k + 1
  {
    if k > 0 {
      FirstDecidingMethodWins(methods[1..], request, masterKey, k - 1);
    }
  }

  /** When every method throws, `next` receives the last method's error. */
  lemma {:induction false} AllThrowReportsLast(methods: seq<string>, request: Request, masterKey: Option<string>)
    requires methods != []
    requires forall j | 0 <= j < |methods| :: TryMethod(methods[j], request, masterKey).Threw?
    ensures Chain(methods, request, masterKey) ==
      [NextWithError(TryMethod(methods[|methods| - 1], request, masterKey).error)]
    ensures TriedCount(methods, request, masterKey) == |methods|
  {
    if |methods| > 1 {
      AllThrowReportsLast(methods[1..], request, masterKey);
    }
  }

  /** The middleware `auth(authMethods)` run on one request.  The list defaults to
      `[API_KEY]` and is copied; the caller's array is only read.  Returns the `next`
      calls made and the methods tried, in order. */
  method Authenticate(authMethods: Option<array<string>>, request: Request, masterKey: Option<string>)
    returns (nextCalls: seq<NextCall>, tried: seq<string>)
    ensures var list := if authMethods.Some? then authMethods.value[..] else [API_KEY];
      && nextCalls == Chain(list, request, masterKey)
      && tried == list[..TriedCount(list, request, masterKey)]
  {
    var list := if authMethods.Some? then authMethods.value[..] else [API_KEY];
    var methods := list;
    var done := false;
    nextCalls, tried := [], [];
    while |methods| > 0 && !done
      invariant |tried| <= |list| && tried == list[..|tried|] && methods == list[|tried|..]
      invariant !done && methods != [] ==>
        && nextCalls == []
        && Chain(list, request, masterKey) == Chain(methods, request, masterKey)
        && TriedCount(list, request, masterKey) == |tried| + TriedCount(methods, request, masterKey)
      invariant done || methods == [] ==>
        && nextCalls == Chain(list, request, masterKey)
        && TriedCount(list, request, masterKey) == |tried|
      decreases |methods|
    {
      var name := methods[0];
      methods := methods[1..];
      tried := tried + [name];
      var error: Option<ApiError> := None;
      if name == TOKEN {
        error := Some(NOT_IMPLEMENTED);
      } else if name == API_KEY {
        var r := ApiKeyAuth(request, masterKey);
        if r.Pass? {
          nextCalls := nextCalls + [Next];
          done := true;
        } else {
          error := Some(r.error);
        }
      } else if name == NONE {
        done := true;
        nextCalls := nextCalls + [Next];
      } else {
        done := true;
        nextCalls := nextCalls + [NextWithError(AUTH_FAILED)];
      }
      if error.Some? && |methods| == 0 {
        nextCalls := nextCalls + [NextWithError(error.value)];
      }
      assert list[..|tried|] == list[..|tried| - 1] + [name];
    }
  }
}
