/** The authenticated request helper: the URL it builds, the headers it sends
    and how it treats a missing token and a 401 reply. */
module AuthFetch {
  import opened Js
  import opened Objects

  /** `base.replace(/\/$/, '')`: at most one trailing slash goes. */
  function StripSlash(base: string): (r: string)
    ensures |base| > 0 && base[|base| - 1] == '/' ==> base == r + "/"
    ensures !(|base| > 0 && base[|base| - 1] == '/') ==> r == base
  {
    if |base| > 0 && base[|base| - 1] == '/' then base[..|base| - 1] else base
  }

  /** The request URL for `url` against the configured base. */
  function JoinUrl(base: string, url: string): string
  {
    if IsPrefix("http", url) then url
    else StripSlash(base) + (if IsPrefix("/", url) then url else "/" + url)
  }

  /** An absolute URL is used as given; any other is the base without its
      trailing slash, exactly one '/', and the path without its leading one.
      Either way the result ends with the given url. */
  lemma JoinUrlSpec(base: string, url: string)
    ensures IsPrefix("http", url) ==> JoinUrl(base, url) == url
    ensures !IsPrefix("http", url) ==>
      JoinUrl(base, url) == StripSlash(base) + "/" + (if IsPrefix("/", url) then url[1..] else url)
    ensures |JoinUrl(base, url)| >= |url| && JoinUrl(base, url)[|JoinUrl(base, url)| - |url|..] == url
  {
    if !IsPrefix("http", url) && IsPrefix("/", url) {
      assert url == "/" + url[1..];
    }
  }

  /** With a base that does not end in two slashes, the joint never doubles
      the slash. */
  lemma NoDoubleSlash(base: string, url: string)
    requires !IsPrefix("http", url) && !IsPrefix("//", url)
    requires !(|base| >= 2 && base[|base| - 2..] == "//")
    ensures var j := |StripSlash(base)|;
      JoinUrl(base, url)[j] == '/' && (j + 1 < |JoinUrl(base, url)| ==> JoinUrl(base, url)[j + 1] != '/')
      && (j > 0 ==> JoinUrl(base, url)[j - 1] != '/')
  {
    JoinUrlSpec(base, url);
    var s := StripSlash(base);
    if |s| > 0 && |base| > 0 && base[|base| - 1] == '/' {
      assert base[|base| - 2..] == [s[|s| - 1], '/'];
    }
    if IsPrefix("/", url) && |url| > 1 {
      assert url[..2] == "//" <==> url[1] == '/';
    }
  }

  /** `{ ...(options.headers || {}), Authorization: ..., 'Content-Type': ... }` */
  function Headers(caller: Option<Obj>, token: string): Obj
  {
    var copied := Spread([], if caller.Some? then caller.value else []);
    Set(Set(copied, "Authorization", Str("Bearer " + token)), "Content-Type", Str("application/json"))
  }

  /** The caller's headers are kept, except that Authorization and
      Content-Type are always the helper's own. */
  lemma HeadersSpec(caller: Option<Obj>, token: string, k: string)
    requires caller.Some? ==> WellFormed(caller.value)
    ensures Get(Headers(caller, token), "Authorization") == Str("Bearer " + token)
    ensures Get(Headers(caller, token), "Content-Type") == Str("application/json")
    ensures k != "Authorization" && k != "Content-Type" ==>
      Get(Headers(caller, token), k) == if caller.Some? then Get(caller.value, k) else Undefined
  {
    var given := if caller.Some? then caller.value else [];
    var copied := Spread([], given);
    var auth := Set(copied, "Authorization", Str("Bearer " + token));
    SetGet(auth, "Content-Type", Str("application/json"), "Authorization");
    SetGet(auth, "Content-Type", Str("application/json"), k);
    SetGet(copied, "Authorization", Str("Bearer " + token), "Authorization");
    SetGet(copied, "Authorization", Str("Bearer " + token), k);
    SetGet(auth, "Content-Type", Str("application/json"), "Content-Type");
    SpreadGet([], given, k);
    GetAbsent(given, k);
  }

  /** A reply: its status and the `message` of its JSON body, None when the
      body is not JSON or has no message. */
  datatype Response = Response(status: int, message: Option<string>)

  /** What the network does with the request. */
  datatype Reply = Responded(response: Response) | NetworkError(reason: string)

  datatype Request = Request(url: string, headers: Obj)

  /** What the caller gets: the response, or the error thrown at it. */
  datatype Outcome = Returned(response: Response) | Threw(message: string)

  /** The message of the error thrown on a 401. */
  function UnauthorizedMessage(r: Response): (m: string)
    ensures m != ""
    ensures r.message.Some? && r.message.value != "" ==> m == r.message.value
  {
    if r.message.Some? && r.message.value != "" then r.message.value else "Unauthorized"
  }

  /** The stored token, the page location, the alerts shown and the requests
      sent. */
  class Session {
    var token: Option<string>
    var location: string
    var alerts: seq<string>
    var requests: seq<Request>

    constructor(token: Option<string>, location: string)
      ensures this.token == token && this.location == location && alerts == [] && requests == []
    {
      this.token := token;
      this.location := location;
      alerts := [];
      requests := [];
    }

    /** `authFetch(url, options)` answered by `reply`. */
    method Fetch(base: string, url: string, caller: Option<Obj>, reply: Reply) returns (outcome: Outcome)
      modifies this
      ensures old(token).None? || old(token) == Some("") ==>
        && outcome == Threw("No token provided") && requests == old(requests)
        && alerts == old(alerts) + ["You must be logged in. Redirecting to login."]
        && location == "/login" && token == old(token)
      ensures old(token).Some? && old(token).value != "" ==>
        requests == old(requests) + [Request(JoinUrl(base, url), Headers(caller, old(token).value))]
      ensures old(token).Some? && old(token).value != "" && reply.NetworkError? ==>
        && outcome == Threw(reply.reason) && token == old(token) && location == old(location) && alerts == old(alerts)
      ensures old(token).Some? && old(token).value != "" && reply.Responded? && reply.response.status == 401 ==>
        && outcome == Threw(UnauthorizedMessage(reply.response)) && token.None? && location == "/login"
        && alerts == old(alerts) + ["Logged out: " + UnauthorizedMessage(reply.response)]
      ensures old(token).Some? && old(token).value != "" && reply.Responded? && reply.response.status != 401 ==>
        && outcome == Returned(reply.response) && token == old(token) && location == old(location) && alerts == old(alerts)
    {
      var fullUrl := JoinUrl(base, url);
      if token.None? || token.value == "" {
        alerts := alerts + ["You must be logged in. Redirecting to login."];
        location := "/login";
        return Threw("No token provided");
      }
      var headers := Headers(caller, token.value);
      requests := requests + [Request(fullUrl, headers)];
      match reply {
        case NetworkError(reason) =>
          outcome := Threw(reason);
        case Responded(response) =>
          if response.status == 401 {
            var errorMsg := UnauthorizedMessage(response);
            token := None;
            alerts := alerts + ["Logged out: " + errorMsg];
            location := "/login";
            outcome := Threw(errorMsg);
          } else {
            outcome := Returned(response);
          }
      }
    }
  }
}
