/**
 * The authenticated HTTP client of `src/utils/axiosInstance.js`: a request
 * hook that attaches the session's bearer token, and a response hook that
 * answers a first 403 on a request by refreshing the access token once and
 * replaying the request.
 *
 * Everything the hooks touch outside themselves is abstract state:
 * the session slice of the store (`Session`), `localStorage` (a string map),
 * `window.location.href` (a string), and the HTTP server, which is a script
 * of replies answered in order (an exhausted script answers with no response,
 * as a network error does). Every request put on the wire is logged, tagged
 * with the client that sent it: the intercepted instance or plain `axios`.
 *
 * `Call` and `OnError` are the protocol as a function of that state; the
 * classes `RequestConfig` and `AuthClient` are the mutable objects the hooks
 * work on, and their methods are proved to do what `Call` and `OnError` say.
 */
module AxiosInstance {
  import opened Wrappers

  type Headers = map<string, string>
  /** A flat JSON object: request bodies and response data. */
  type Json = map<string, string>
  /** The store's user record, never examined here. */
  type User = string

  /** The auth slice: user and access token; `None` is `null`/`undefined`. */
  datatype Session = Session(user: Option<User>, token: Option<string>)

  /** What `logout` leaves: no user, no token. */
  const LoggedOut := Session(None, None)
  const RefreshPath := "/users/refresh-token"
  /** The one status that triggers the refresh protocol. */
  const Forbidden := 403
  /** Where a failed refresh sends the browser. */
  const LoginLocation := "/"

  /** JavaScript truthiness of a string that may be absent: `null`, `undefined` and `""` are falsy. */
  predicate Truthy(v: Option<string>)
  {
    v.Some? && v.value != ""
  }

  /** A possibly-undefined value in a template literal or `setItem`: `undefined` prints as "undefined". */
  function JsString(v: Option<string>): (r: string)
  {
    if v.Some? then v.value else "undefined"
  }

  /**
   * The request hook: with a truthy session token, `Authorization` becomes
   * `Bearer <token>`; otherwise the headers are left as they were. No other
   * header is touched.
   */
  function WithBearer(headers: Headers, token: Option<string>): (r: Headers)
    ensures Truthy(token) ==> "Authorization" in r && r["Authorization"] == "Bearer " + token.value
    ensures !Truthy(token) ==> r == headers
    ensures forall k :: k != "Authorization" ==> (k in r <==> k in headers)
    ensures forall k :: k != "Authorization" && k in headers ==> r[k] == headers[k]
  {
    if Truthy(token) then headers["Authorization" := "Bearer " + token.value] else headers
  }

  /** Who put a request on the wire. */
  datatype Channel = Instance | Plain

  datatype Wire = Wire(channel: Channel, url: string, headers: Headers, data: Json)

  /** A reply from the server, or none at all (a transport failure). */
  datatype Reply = Reply(status: int, data: Json) | NoReply

  /** axios resolves a request exactly on a 2xx status; anything else is an error. */
  predicate Succeeded(r: Reply)
  {
    r.Reply? && 200 <= r.status < 300
  }

  /** `error.response?.status === 403`. */
  predicate IsForbidden(r: Reply)
  {
    r.Reply? && r.status == Forbidden
  }

  /** How a request's promise settles: resolved with a response, or rejected with the error's reply. */
  datatype Outcome = Resolved(response: Reply) | Rejected(error: Reply)

  /** A request configuration; `retry` is the `_retry` mark (initially `undefined`, i.e. false). */
  datatype Config = Config(url: string, data: Json, headers: Headers, retry: bool)

  /** Everything outside the hooks that they read or write. */
  datatype World = World(
    apiUrl: string,
    session: Session,
    storage: map<string, string>,
    location: string,
    replies: seq<Reply>,
    log: seq<Wire>)

  /** The state after a request settles. */
  datatype Step = Step(world: World, config: Config, outcome: Outcome)

  /** The server's answer to the next request. */
  function Answer(w: World): (r: Reply)
  {
    if |w.replies| > 0 then w.replies[0] else NoReply
  }

  /** The world after one request went out and its answer was consumed. */
  function Sent(w: World, wire: Wire): (r: World)
    ensures r.log == w.log + [wire]
    ensures r.apiUrl == w.apiUrl && r.session == w.session && r.storage == w.storage && r.location == w.location
    ensures r.replies == if |w.replies| > 0 then w.replies[1..] else []
  {
    w.(replies := if |w.replies| > 0 then w.replies[1..] else [], log := w.log + [wire])
  }

  /** What the intercepted instance puts on the wire for a configuration (`baseURL` joined to `url`). */
  function RequestWire(w: World, c: Config): (r: Wire)
  {
    Wire(Instance, w.apiUrl + c.url, c.headers, c.data)
  }

  /** The first request of a call: the configuration after the request hook has run. */
  function HookedWire(w: World, c: Config): (r: Wire)
  {
    RequestWire(w, c.(headers := WithBearer(c.headers, w.session.token)))
  }

  /** The replay: the original request, its body and other headers intact, with `Bearer <token>`. */
  function ReplayWire(w: World, c: Config, token: Option<string>): (r: Wire)
  {
    Wire(Instance, w.apiUrl + c.url, c.headers["Authorization" := "Bearer " + JsString(token)], c.data)
  }

  /** The refresh call: plain `axios.post`, so no headers of the instance and no bearer token. */
  function RefreshWire(w: World, refreshToken: string): (r: Wire)
  {
    Wire(Plain, w.apiUrl + RefreshPath, map[], map["refreshToken" := refreshToken])
  }

  /** `logout()` followed by `window.location.href = '/'`. */
  function Expired(w: World): (r: World)
  {
    w.(session := LoggedOut, location := LoginLocation)
  }

  /** `axiosInstance(config)`: the request hook, the request, then one of the response hooks. */
  function Call(w: World, c: Config): (s: Step)
    ensures s.world.apiUrl == w.apiUrl && |w.log| < |s.world.log|
    ensures s.config.url == c.url && s.config.data == c.data
    decreases if c.retry then 0 else 1, 1
  {
    var c1 := c.(headers := WithBearer(c.headers, w.session.token));
    var reply := Answer(w);
    var w1 := Sent(w, RequestWire(w, c1));
    if Succeeded(reply) then Step(w1, c1, Resolved(reply)) else OnError(w1, c1, reply)
  }

  /** The response hook's error branch, for an error carrying `error` about the request `c`. */
  function OnError(w: World, c: Config, error: Reply): (s: Step)
    ensures s.world.apiUrl == w.apiUrl && |w.log| <= |s.world.log|
    ensures s.config.url == c.url && s.config.data == c.data
    decreases if c.retry then 0 else 1, 0
  {
    if IsForbidden(error) && !c.retry then
      var c1 := c.(retry := true);
      var refreshToken := Lookup(w.storage, "refreshToken");
      if !Truthy(refreshToken) then Step(Expired(w), c1, Rejected(error))
      else
        var answer := Answer(w);
        var w1 := Sent(w, RefreshWire(w, refreshToken.value));
        if !Succeeded(answer) then Step(Expired(w1), c1, Rejected(error))
        else
          var token := Lookup(answer.data, "accessToken");
          var w2 := w1.(session := Session(w1.session.user, token),
                        storage := w1.storage["token" := JsString(token)]);
          Call(w2, c1.(headers := c1.headers["Authorization" := "Bearer " + JsString(token)]))
    else
      Step(w, c, Rejected(error))
  }

  /** How many requests of a log went out through a channel. */
  function CountChannel(log: seq<Wire>, ch: Channel): (n: nat)
  {
    if log == [] then 0
    else (if log[0].channel == ch then 1 else 0) + CountChannel(log[1..], ch)
  }

  lemma {:induction false} CountChannelAppend(a: seq<Wire>, b: seq<Wire>, ch: Channel)
    ensures CountChannel(a + b, ch) == CountChannel(a, ch) + CountChannel(b, ch)
  {
    if a == [] {
      assert a + b == b;
    } else {
      CountChannelAppend(a[1..], b, ch);
      assert (a + b)[1..] == a[1..] + b;
    }
  }

  // ---------------------------------------------------------------------------
  // the protocol, branch by branch

  /** A successful response is returned unchanged, and only the request itself went out. */
  lemma CallPassesSuccess(w: World, c: Config)
    requires Succeeded(Answer(w))
    ensures Call(w, c).outcome == Resolved(Answer(w))
    ensures Call(w, c).world == Sent(w, HookedWire(w, c))
    ensures Call(w, c).config.retry == c.retry
    ensures Call(w, c).config == c.(headers := WithBearer(c.headers, w.session.token))
  {
  }

  /**
   * An error that is not a first 403 (another status, no response, or a 403
   * on a request already marked `_retry`) is rejected unchanged: no refresh,
   * no session, storage or location change.
   */
  lemma CallRejectsOtherErrors(w: World, c: Config)
    requires !Succeeded(Answer(w)) && !(IsForbidden(Answer(w)) && !c.retry)
    ensures Call(w, c).outcome == Rejected(Answer(w))
    ensures Call(w, c).world == Sent(w, HookedWire(w, c))
    ensures Call(w, c).config.retry == c.retry
    ensures Call(w, c).config == c.(headers := WithBearer(c.headers, w.session.token))
  {
  }

  /**
   * A first 403 with no truthy refresh token in storage: the request is
   * marked, the refresh endpoint is not called, the session is logged out,
   * the browser is sent to `/`, and the original error is rejected.
   */
  lemma CallWithoutRefreshToken(w: World, c: Config)
    requires !c.retry && IsForbidden(Answer(w))
    requires !Truthy(Lookup(w.storage, "refreshToken"))
    ensures Call(w, c).outcome == Rejected(Answer(w))
    ensures Call(w, c).world.session == LoggedOut && Call(w, c).world.location == LoginLocation
    ensures Call(w, c).world.storage == w.storage
    ensures Call(w, c).world.log == w.log + [HookedWire(w, c)]
    ensures Call(w, c).world == Expired(Sent(w, HookedWire(w, c)))
    ensures Call(w, c).config.retry
    ensures Call(w, c).config == c.(headers := WithBearer(c.headers, w.session.token), retry := true)
  {
  }

  /**
   * A first 403 whose refresh call fails (an error status, or no answer at
   * all): exactly one refresh call goes out, the session is logged out, the
   * browser is sent to `/`, storage is untouched, and the original 403 is
   * still what the caller sees.
   */
  lemma CallRefreshFails(w: World, c: Config)
    requires !c.retry && IsForbidden(Answer(w))
    requires Truthy(Lookup(w.storage, "refreshToken"))
    requires !Succeeded(Answer(Sent(w, HookedWire(w, c))))
    ensures var refresh := RefreshWire(w, w.storage["refreshToken"]);
      && Call(w, c).outcome == Rejected(Answer(w))
      && Call(w, c).world == Expired(Sent(Sent(w, HookedWire(w, c)), refresh))
      && Call(w, c).world.session == LoggedOut && Call(w, c).world.location == LoginLocation
      && Call(w, c).world.storage == w.storage
      && Call(w, c).world.log == w.log + [HookedWire(w, c), refresh]
      && Call(w, c).config.retry
      && Call(w, c).config == c.(headers := WithBearer(c.headers, w.session.token), retry := true)
  {
    var w1 := Sent(w, HookedWire(w, c));
    assert Call(w, c) == OnError(w1, c.(headers := WithBearer(c.headers, w.session.token)), Answer(w));
  }

  /**
   * A first 403 whose refresh succeeds: the session keeps its user and takes
   * the new access token, `localStorage['token']` is set to it, and the
   * original request, body and other headers unchanged, is replayed exactly
   * once with `Bearer <new token>`. The replay's own result is what the
   * caller sees; a replay that fails, even with another 403, is rejected with
   * no second refresh.
   */
  lemma CallRefreshesAndReplays(w: World, c: Config)
    requires !c.retry && IsForbidden(Answer(w))
    requires Truthy(Lookup(w.storage, "refreshToken"))
    requires Succeeded(Answer(Sent(w, HookedWire(w, c))))
    ensures var w1 := Sent(w, HookedWire(w, c));
      var refresh := RefreshWire(w, w.storage["refreshToken"]);
      var w2 := Sent(w1, refresh);
      var token := Lookup(Answer(w1).data, "accessToken");
      var replay := ReplayWire(w, c, token);
      && Call(w, c).world.session == Session(w.session.user, token)
      && Call(w, c).world.storage == w.storage["token" := JsString(token)]
      && Call(w, c).world.location == w.location
      && Call(w, c).world.replies == Sent(w2, replay).replies
      && Call(w, c).world.log == w.log + [HookedWire(w, c), refresh, replay]
      && Call(w, c).outcome == (if Succeeded(Answer(w2)) then Resolved(Answer(w2)) else Rejected(Answer(w2)))
      && Call(w, c).config.retry
      && Call(w, c).config == c.(headers := c.headers["Authorization" := "Bearer " + JsString(token)], retry := true)
  {
    var c1 := c.(headers := WithBearer(c.headers, w.session.token));
    var w1 := Sent(w, RequestWire(w, c1));
    assert Call(w, c) == OnError(w1, c1, Answer(w));
    var rt := w.storage["refreshToken"];
    var w2 := Sent(w1, RefreshWire(w1, rt));
    var token := Lookup(Answer(w1).data, "accessToken");
    var w3 := w2.(session := Session(w2.session.user, token), storage := w2.storage["token" := JsString(token)]);
    var c2 := c1.(retry := true).(headers := c1.headers["Authorization" := "Bearer " + JsString(token)]);
    assert OnError(w1, c1, Answer(w)) == Call(w3, c2);
    assert Answer(w3) == Answer(w2);
    var c3 := c2.(headers := WithBearer(c2.headers, w3.session.token));
    assert c3.headers == c.headers["Authorization" := "Bearer " + JsString(token)];
    assert RequestWire(w3, c3) == ReplayWire(w, c, token);
    assert Call(w3, c2).world == Sent(w3, RequestWire(w3, c3));
    assert Call(w3, c2).config == c3;
  }

  // ---------------------------------------------------------------------------
  // properties of every run

  /** `log` begins with `prefix`. */
  predicate Extends(log: seq<Wire>, prefix: seq<Wire>)
  {
    |prefix| <= |log| && log[..|prefix|] == prefix
  }

  lemma ExtendsTransitive(a: seq<Wire>, b: seq<Wire>, c: seq<Wire>)
    requires Extends(b, a) && Extends(c, b)
    ensures Extends(c, a)
    ensures c[|a|..] == b[|a|..] + c[|b|..]
  {
    assert c[..|a|] == c[..|b|][..|a|];
    assert c[|a|..] == c[|a|..|b|] + c[|b|..];
  }

  /**
   * The error handler refreshes at most once, and only for a request not yet
   * marked `_retry`; the request is marked before the refresh call is made.
   */
  lemma {:induction false} OnErrorRefreshesAtMostOnce(w: World, c: Config, error: Reply)
    ensures var s := OnError(w, c, error);
      && Extends(s.world.log, w.log)
      && CountChannel(s.world.log[|w.log|..], Plain) <= (if c.retry then 0 else 1)
      && CountChannel(s.world.log[|w.log|..], Instance) <= (if c.retry then 0 else 1)
      && (CountChannel(s.world.log[|w.log|..], Plain) == 1 ==> s.config.retry)
    decreases if c.retry then 0 else 1, 0
  {
    var s := OnError(w, c, error);
    if IsForbidden(error) && !c.retry {
      var c1 := c.(retry := true);
      var refreshToken := Lookup(w.storage, "refreshToken");
      if !Truthy(refreshToken) {
        assert s.world.log == w.log;
      } else {
        var rwire := RefreshWire(w, refreshToken.value);
        var w1 := Sent(w, rwire);
        assert Extends(w1.log, w.log) && w1.log[|w.log|..] == [rwire];
        if !Succeeded(Answer(w)) {
          assert s.world.log == w1.log;
        } else {
          var token := Lookup(Answer(w).data, "accessToken");
          var w2 := w1.(session := Session(w1.session.user, token), storage := w1.storage["token" := JsString(token)]);
          var c2 := c1.(headers := c1.headers["Authorization" := "Bearer " + JsString(token)]);
          assert s == Call(w2, c2);
          CallRefreshesAtMostOnce(w2, c2);
          ExtendsTransitive(w.log, w2.log, s.world.log);
          CountChannelAppend([rwire], s.world.log[|w2.log|..], Plain);
          CountChannelAppend([rwire], s.world.log[|w2.log|..], Instance);
        }
      }
    } else {
      assert s.world.log == w.log;
    }
  }

  /**
   * At most one refresh per request: a request already marked `_retry` makes
   * no refresh call, an unmarked one at most one, and a request goes out at
   * most twice. A refresh call is only made once the request is marked.
   */
  lemma {:induction false} CallRefreshesAtMostOnce(w: World, c: Config)
    ensures var s := Call(w, c);
      && Extends(s.world.log, w.log) && |w.log| < |s.world.log|
      && CountChannel(s.world.log[|w.log|..], Plain) <= (if c.retry then 0 else 1)
      && 1 <= CountChannel(s.world.log[|w.log|..], Instance) <= (if c.retry then 1 else 2)
      && (CountChannel(s.world.log[|w.log|..], Plain) == 1 ==> s.config.retry)
    decreases if c.retry then 0 else 1, 1
  {
    var s := Call(w, c);
    var c1 := c.(headers := WithBearer(c.headers, w.session.token));
    var wire := RequestWire(w, c1);
    var w1 := Sent(w, wire);
    assert Extends(w1.log, w.log) && w1.log[|w.log|..] == [wire];
    if Succeeded(Answer(w)) {
      assert s.world.log == w1.log;
    } else {
      assert s == OnError(w1, c1, Answer(w));
      OnErrorRefreshesAtMostOnce(w1, c1, Answer(w));
      ExtendsTransitive(w.log, w1.log, s.world.log);
      CountChannelAppend([wire], s.world.log[|w1.log|..], Plain);
      CountChannelAppend([wire], s.world.log[|w1.log|..], Instance);
    }
  }

  /**
   * The hooks never touch `localStorage['refreshToken']`, nor any key but
   * `token`, and never change the base URL.
   */
  lemma {:induction false} CallKeepsStorage(w: World, c: Config)
    ensures Call(w, c).world.apiUrl == w.apiUrl
    ensures forall k :: k != "token" ==> Lookup(Call(w, c).world.storage, k) == Lookup(w.storage, k)
    decreases if c.retry then 0 else 1
  {
    var c1 := c.(headers := WithBearer(c.headers, w.session.token));
    var w1 := Sent(w, RequestWire(w, c1));
    var reply := Answer(w);
    if !Succeeded(reply) && IsForbidden(reply) && !c.retry {
      var refreshToken := Lookup(w1.storage, "refreshToken");
      if Truthy(refreshToken) && Succeeded(Answer(w1)) {
        var w2 := Sent(w1, RefreshWire(w1, refreshToken.value));
        var token := Lookup(Answer(w1).data, "accessToken");
        var w3 := w2.(session := Session(w2.session.user, token), storage := w2.storage["token" := JsString(token)]);
        var c2 := c1.(retry := true).(headers := c1.headers["Authorization" := "Bearer " + JsString(token)]);
        assert Call(w, c) == Call(w3, c2);
        CallKeepsStorage(w3, c2);
      }
    }
  }

  // ---------------------------------------------------------------------------
  // the mutable objects

  /** The request configuration object the hooks mutate (`headers.Authorization`, `_retry`). */
  class RequestConfig {
    var url: string
    var data: Json
    var headers: Headers
    var retry: bool

    constructor (url: string, data: Json, headers: Headers)
      ensures Value() == Config(url, data, headers, false)
    {
      this.url := url;
      this.data := data;
      this.headers := headers;
      this.retry := false;
    }

    function Value(): (c: Config)
      reads this
    {
      Config(url, data, headers, retry)
    }
  }

  /** The intercepted axios instance together with the state it reaches out to. */
  class AuthClient {
    const apiUrl: string
    var session: Session
    var storage: map<string, string>
    var location: string
    var replies: seq<Reply>
    var log: seq<Wire>

    constructor (apiUrl: string, session: Session, storage: map<string, string>, location: string, replies: seq<Reply>)
      ensures Snapshot() == World(apiUrl, session, storage, location, replies, [])
    {
      this.apiUrl := apiUrl;
      this.session := session;
      this.storage := storage;
      this.location := location;
      this.replies := replies;
      this.log := [];
    }

    function Snapshot(): (w: World)
      reads this
    {
      World(apiUrl, session, storage, location, replies, log)
    }

    /** `store.dispatch(setCredentials({ user, token }))`: replace the session. */
    method SetCredentials(user: Option<User>, token: Option<string>)
      modifies this`session
      ensures session == Session(user, token)
    {
      session := Session(user, token);
    }

    /** `store.dispatch(logout())`: reset the session. */
    method Logout()
      modifies this`session
      ensures session == LoggedOut
    {
      session := LoggedOut;
    }

    /** Put one request on the wire and take the server's answer to it. */
    method Transmit(wire: Wire) returns (reply: Reply)
      modifies this`replies, this`log
      ensures reply == Answer(old(Snapshot()))
      ensures Snapshot() == Sent(old(Snapshot()), wire)
    {
      if |replies| > 0 {
        reply := replies[0];
        replies := replies[1..];
      } else {
        reply := NoReply;
      }
      log := log + [wire];
    }

    /** The request hook: attach `Bearer <token>` when the session token is truthy. */
    method RequestHook(config: RequestConfig)
      modifies config`headers
      ensures config.headers == WithBearer(old(config.headers), session.token)
    {
      var token := session.token;
      if Truthy(token) {
        config.headers := config.headers["Authorization" := "Bearer " + token.value];
      }
    }

    /** `axiosInstance(config)`. */
    method Request(config: RequestConfig) returns (outcome: Outcome)
      modifies this, config
      decreases if config.retry then 0 else 1, 1
      ensures Step(Snapshot(), config.Value(), outcome) == Call(old(Snapshot()), old(config.Value()))
    {
      RequestHook(config);
      var reply := Transmit(Wire(Instance, apiUrl + config.url, config.headers, config.data));
      if Succeeded(reply) {
        outcome := Resolved(reply);
      } else {
        outcome := OnResponseError(config, reply);
      }
    }

    /** The response hook's error handler, for an error about `config` carrying `error`. */
    method OnResponseError(config: RequestConfig, error: Reply) returns (outcome: Outcome)
      modifies this, config
      decreases if config.retry then 0 else 1, 0
      ensures Step(Snapshot(), config.Value(), outcome) == OnError(old(Snapshot()), old(config.Value()), error)
    {
      if IsForbidden(error) && !config.retry {
        config.retry := true;
        var refreshToken := Lookup(storage, "refreshToken");
        if Truthy(refreshToken) {
          var answer := Transmit(Wire(Plain, apiUrl + RefreshPath, map[], map["refreshToken" := refreshToken.value]));
          if Succeeded(answer) {
            var token := Lookup(answer.data, "accessToken");
            SetCredentials(session.user, token);
            storage := storage["token" := JsString(token)];
            config.headers := config.headers["Authorization" := "Bearer " + JsString(token)];
            outcome := Request(config);
            return;
          }
        }
        Logout();
        location := LoginLocation;
      }
      outcome := Rejected(error);
    }
  }
}
