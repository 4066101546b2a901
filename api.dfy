/**
 * The client transport of frontend/Auth-Project/src/services/api.js: the axios instance `API`
 * with its request interceptor (attach the stored access token as a bearer credential,
 * section 2.1 of RFC 6750) and its response interceptor (on a 401, refresh once and resend).
 *
 * The browser's `localStorage` is the class LocalStorage with its two keys. The network is a
 * scripted remote: the n-th HTTP exchange receives the n-th scripted reply (or no reply at all
 * once the script is exhausted) and every exchange is logged. The functions Attach, Dispatch and
 * HandleError state on values what the methods of Api do to the objects.
 */
module Transport {
  import opened Wrappers
  import opened Js

  /** A response body (`response.data`), as the string fields the client reads from it. */
  type Json = map<string, string>

  /** What came back for one HTTP exchange: a response, or nothing (a network error). */
  datatype HttpResult = Reply(status: int, data: Json) | NoReply

  /** axios's default `validateStatus`: only a 2xx response resolves. */
  predicate IsSuccess(r: HttpResult)
  {
    r.Reply? && 200 <= r.status < 300
  }

  /** `error.response?.status === 401`. */
  predicate IsUnauthorized(r: HttpResult)
  {
    r.Reply? && r.status == 401
  }

  /** `response.data.accessToken` and the like. */
  function Field(data: Json, key: string): Option<string>
  {
    if key in data then Some(data[key]) else None
  }

  function Bearer(token: string): string
  {
    "Bearer " + token
  }

  datatype Verb = Get | Post | Put

  /** One HTTP exchange: a request made through `API`, or the refresh posted with bare `axios`. */
  datatype Call =
    | ApiCall(verb: Verb, path: string, authorization: Option<string>)
    | RefreshCall(refreshToken: string)

  /** The two keys the client keeps in `localStorage`. */
  datatype Stored = Stored(token: Option<string>, refreshToken: Option<string>)

  /** The request config as far as the interceptors touch it. */
  datatype Req = Req(verb: Verb, path: string, authorization: Option<string>, retry: bool)

  /** Everything one request through `API` produces: its settlement, the config and storage after it, the exchanges it made and the replies still unread. */
  datatype Chain = Chain(
    result: Result<HttpResult, HttpResult>,
    req: Req,
    stored: Stored,
    calls: seq<Call>,
    replies: seq<HttpResult>)

  function Head(replies: seq<HttpResult>): HttpResult
  {
    if replies == [] then NoReply else replies[0]
  }

  function Tail(replies: seq<HttpResult>): seq<HttpResult>
  {
    if replies == [] then [] else replies[1..]
  }

  /** The script after `n` exchanges. */
  function Drop(replies: seq<HttpResult>, n: nat): seq<HttpResult>
  {
    if n <= |replies| then replies[n..] else []
  }

  /** The request interceptor: a bearer header iff a (truthy) access token is stored; otherwise the config is untouched. */
  function Attach(req: Req, stored: Stored): (sent: Req)
    ensures sent.verb == req.verb && sent.path == req.path && sent.retry == req.retry
    ensures Truthy(stored.token) ==> sent.authorization == Some(Bearer(stored.token.value))
    ensures !Truthy(stored.token) ==> sent == req
  {
    if Truthy(stored.token) then req.(authorization := Some(Bearer(stored.token.value))) else req
  }

  /** `API(req)`: the request interceptor, one exchange, and on a failure the response interceptor. */
  function Dispatch(req: Req, stored: Stored, replies: seq<HttpResult>): (c: Chain)
    decreases if req.retry then 0 else 1, 1
    ensures 1 <= |c.calls| <= 3
    ensures c.calls[0] == ApiCall(req.verb, req.path, Attach(req, stored).authorization)
    ensures forall i :: 0 <= i < |c.calls| ==> (c.calls[i].RefreshCall? <==> i == 1)
    ensures c.replies == Drop(replies, |c.calls|)
    ensures c.result.Ok? ==> IsSuccess(c.result.value)
    ensures c.req.verb == req.verb && c.req.path == req.path
    ensures c.stored.refreshToken == stored.refreshToken || c.stored == Stored(None, None)
    ensures req.retry ==> |c.calls| == 1 && c.stored == stored && c.req == Attach(req, stored)
    ensures !IsUnauthorized(Head(replies)) || req.retry ==> |c.calls| == 1 && c.stored == stored
    ensures |c.calls| == 1 ==>
      && c.stored == stored
      && c.result == (if IsSuccess(Head(replies)) then Ok(Head(replies)) else Err(Head(replies)))
  {
    var sent := Attach(req, stored);
    var reply := Head(replies);
    if IsSuccess(reply) then Chain(Ok(reply), sent, stored, [ApiCall(sent.verb, sent.path, sent.authorization)], Tail(replies))
    else
      var c := HandleError(sent, stored, reply, Tail(replies));
      c.(calls := [ApiCall(sent.verb, sent.path, sent.authorization)] + c.calls)
  }

  /**
   * The response interceptor's error handler for a request `req` (as sent) that failed with
   * `error`: reject unchanged unless it is the first 401 of this request; then mark the request,
   * and with a stored refresh token post it once to /refresh; on success store the new access
   * token and resend, on failure clear both keys and reject with the original error.
   */
  function HandleError(req: Req, stored: Stored, error: HttpResult, replies: seq<HttpResult>): (c: Chain)
    decreases if req.retry then 0 else 1, 0
    ensures |c.calls| <= 2
    ensures forall i :: 0 <= i < |c.calls| ==> (c.calls[i].RefreshCall? <==> i == 0)
    ensures c.replies == Drop(replies, |c.calls|)
    ensures c.result.Ok? ==> IsSuccess(c.result.value)
    ensures c.req.verb == req.verb && c.req.path == req.path
    ensures !IsUnauthorized(error) || req.retry ==> c == Chain(Err(error), req, stored, [], replies)
    ensures IsUnauthorized(error) && !req.retry && !Truthy(stored.refreshToken) ==>
      c == Chain(Err(error), req.(retry := true), stored, [], replies)
    ensures IsUnauthorized(error) && !req.retry && Truthy(stored.refreshToken) && !IsSuccess(Head(replies)) ==>
      c == Chain(Err(error), req.(retry := true), Stored(None, None), [RefreshCall(stored.refreshToken.value)], Tail(replies))
    ensures IsUnauthorized(error) && !req.retry && Truthy(stored.refreshToken) && IsSuccess(Head(replies)) ==>
      var newToken := Stringify(Field(Head(replies).data, "accessToken"));
      var second := Head(Tail(replies));
      && c.calls == [RefreshCall(stored.refreshToken.value), ApiCall(req.verb, req.path, Some(Bearer(newToken)))]
      && c.stored == stored.(token := Some(newToken))
      && c.req == req.(retry := true, authorization := Some(Bearer(newToken)))
      && c.result == (if IsSuccess(second) then Ok(second) else Err(second))
  {
    if IsUnauthorized(error) && !req.retry then
      var marked := req.(retry := true);
      if Truthy(stored.refreshToken) then
        var refreshed := Head(replies);
        var refreshCall := RefreshCall(stored.refreshToken.value);
        if IsSuccess(refreshed) then
          var newToken := Stringify(Field(refreshed.data, "accessToken"));
          var renewed := stored.(token := Some(newToken));
          var resent := Dispatch(marked.(authorization := Some(Bearer(newToken))), renewed, Tail(replies));
          resent.(calls := [refreshCall] + resent.calls)
        else
          Chain(Err(error), marked, Stored(None, None), [refreshCall], Tail(replies))
      else
        Chain(Err(error), marked, stored, [], replies)
    else
      Chain(Err(error), req, stored, [], replies)
  }

  /** The number of posts to /refresh in a log of exchanges. */
  function RefreshCount(calls: seq<Call>): nat
  {
    if calls == [] then 0 else (if calls[0].RefreshCall? then 1 else 0) + RefreshCount(calls[1..])
  }

  /** A log whose only refresh, if any, sits at position `k` counts at most one refresh. */
  lemma {:induction false} RefreshCountAt(calls: seq<Call>, k: nat)
    requires forall i :: 0 <= i < |calls| ==> (calls[i].RefreshCall? <==> i == k)
    ensures RefreshCount(calls) == if k < |calls| then 1 else 0
  {
    if calls != [] {
      var rest := calls[1..];
      if k == 0 {
        assert forall i :: 0 <= i < |rest| ==> !rest[i].RefreshCall? by {
          forall i | 0 <= i < |rest| ensures !rest[i].RefreshCall? {
            assert rest[i] == calls[i + 1];
          }
        }
        NoRefresh(rest);
      } else {
        assert forall i :: 0 <= i < |rest| ==> (rest[i].RefreshCall? <==> i == k - 1) by {
          forall i | 0 <= i < |rest| ensures rest[i].RefreshCall? <==> i == k - 1 {
            assert rest[i] == calls[i + 1];
          }
        }
        RefreshCountAt(rest, k - 1);
      }
    }
  }

  /** A log without a refresh counts none. */
  lemma {:induction false} NoRefresh(calls: seq<Call>)
    requires forall i :: 0 <= i < |calls| ==> !calls[i].RefreshCall?
    ensures RefreshCount(calls) == 0
  {
    if calls != [] {
      var rest := calls[1..];
      assert forall i :: 0 <= i < |rest| ==> !rest[i].RefreshCall? by {
        forall i | 0 <= i < |rest| ensures !rest[i].RefreshCall? {
          assert rest[i] == calls[i + 1];
        }
      }
      NoRefresh(rest);
    }
  }

  /**
   * Bounded retry: one request through `API` makes at most one refresh call and at most two
   * attempts of its own, however the server answers.
   */
  lemma AtMostOneRefresh(req: Req, stored: Stored, replies: seq<HttpResult>)
    ensures RefreshCount(Dispatch(req, stored, replies).calls) <= 1
    ensures |Dispatch(req, stored, replies).calls| - RefreshCount(Dispatch(req, stored, replies).calls) <= 2
    ensures req.retry ==> RefreshCount(Dispatch(req, stored, replies).calls) == 0
  {
    var c := Dispatch(req, stored, replies);
    RefreshCountAt(c.calls, 1);
  }

  /**
   * Never zero refreshes either: the first 401 of a request, with a refresh token stored, makes
   * exactly one refresh call; when it succeeds the request is resent once with the new token and
   * settles as that second attempt does, so a 2xx second attempt succeeds transparently.
   */
  lemma RenewalOn401(req: Req, stored: Stored, replies: seq<HttpResult>)
    requires !req.retry && IsUnauthorized(Head(replies)) && Truthy(stored.refreshToken)
    ensures var c := Dispatch(req, stored, replies);
      && RefreshCount(c.calls) == 1
      && c.calls[1] == RefreshCall(stored.refreshToken.value)
      && c.req.retry
    ensures IsSuccess(Head(Drop(replies, 1))) ==>
      var c := Dispatch(req, stored, replies);
      var newToken := Stringify(Field(Head(Drop(replies, 1)).data, "accessToken"));
      && c.stored == stored.(token := Some(newToken))
      && c.calls[2] == ApiCall(req.verb, req.path, Some(Bearer(newToken)))
      && c.result == (if IsSuccess(Head(Drop(replies, 2))) then Ok(Head(Drop(replies, 2))) else Err(Head(Drop(replies, 2))))
    ensures !IsSuccess(Head(Drop(replies, 1))) ==>
      var c := Dispatch(req, stored, replies);
      c.stored == Stored(None, None) && c.result == Err(Head(replies)) && |c.calls| == 2
  {
    var c := Dispatch(req, stored, replies);
    RefreshCountAt(c.calls, 1);
  }

  class LocalStorage {
    var token: Option<string>
    var refreshToken: Option<string>

    constructor (token: Option<string>, refreshToken: Option<string>)
      ensures this.token == token && this.refreshToken == refreshToken
    {
      this.token := token;
      this.refreshToken := refreshToken;
    }

    function Snapshot(): Stored
      reads this
    {
      Stored(token, refreshToken)
    }
  }

  /** The remote end: the replies it will give, in order, and the log of exchanges made so far. */
  class Network {
    var replies: seq<HttpResult>
    var log: seq<Call>

    constructor (replies: seq<HttpResult>)
      ensures this.replies == replies && log == []
    {
      this.replies := replies;
      log := [];
    }

    method Exchange(call: Call) returns (reply: HttpResult)
      modifies this
      ensures reply == Head(old(replies)) && replies == Tail(old(replies))
      ensures log == old(log) + [call]
    {
      reply := Head(replies);
      replies := Tail(replies);
      log := log + [call];
    }
  }

  /** An axios request config: `headers.Authorization` and the `_retry` mark. */
  class RequestConfig {
    const verb: Verb
    const path: string
    var authorization: Option<string>
    var retry: bool

    constructor (verb: Verb, path: string)
      ensures Snapshot() == Req(verb, path, None, false)
    {
      this.verb := verb;
      this.path := path;
      authorization := None;
      retry := false;
    }

    function Snapshot(): Req
      reads this
    {
      Req(verb, path, authorization, retry)
    }
  }

  /** The axios instance `API` with both interceptors installed. */
  class Api {
    const storage: LocalStorage
    const net: Network

    constructor (storage: LocalStorage, net: Network)
      ensures this.storage == storage && this.net == net
    {
      this.storage := storage;
      this.net := net;
    }

    method RequestInterceptor(config: RequestConfig)
      modifies config
      ensures config.Snapshot() == Attach(old(config.Snapshot()), storage.Snapshot())
    {
      var token := storage.token;
      if Truthy(token) {
        config.authorization := Some(Bearer(token.value));
      }
    }

    /** `API(config)`: resolves with a 2xx reply or rejects with the failed one. */
    method Send(config: RequestConfig) returns (r: Result<HttpResult, HttpResult>)
      modifies config, storage, net
      decreases if config.retry then 0 else 1, 1
      ensures var c := Dispatch(old(config.Snapshot()), old(storage.Snapshot()), old(net.replies));
        && r == c.result
        && config.Snapshot() == c.req
        && storage.Snapshot() == c.stored
        && net.replies == c.replies
        && net.log == old(net.log) + c.calls
    {
      RequestInterceptor(config);
      var reply := net.Exchange(ApiCall(config.verb, config.path, config.authorization));
      if IsSuccess(reply) {
        r := Ok(reply);
      } else {
        r := ResponseError(config, reply);
      }
    }

    /** The response interceptor's error handler; `config` is the request as it was sent. */
    method ResponseError(config: RequestConfig, error: HttpResult) returns (r: Result<HttpResult, HttpResult>)
      modifies config, storage, net
      decreases if config.retry then 0 else 1, 0
      ensures var c := HandleError(old(config.Snapshot()), old(storage.Snapshot()), error, old(net.replies));
        && r == c.result
        && config.Snapshot() == c.req
        && storage.Snapshot() == c.stored
        && net.replies == c.replies
        && net.log == old(net.log) + c.calls
    {
      if IsUnauthorized(error) && !config.retry {
        config.retry := true;
        var refreshToken := storage.refreshToken;
        if Truthy(refreshToken) {
          // bare axios: no interceptor sees this post
          var refreshed := net.Exchange(RefreshCall(refreshToken.value));
          if IsSuccess(refreshed) {
            var newToken := Stringify(Field(refreshed.data, "accessToken"));
            storage.token := Some(newToken);
            config.authorization := Some(Bearer(newToken));
            r := Send(config);
            return;
          } else {
            storage.token := None;
            storage.refreshToken := None;
          }
        }
      }
      r := Err(error);
    }
  }
}
