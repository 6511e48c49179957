/** The proxy route's decisions (`backend/app/proxy.py`): the API-key gate,
    the url and host checks, and the headers of the outgoing request,
    including which bearer token it carries. The fetch itself is not part of
    this model. Environment variables are inputs: `None` for an unset one. */
module Proxy {
  import opened Builtins
  import opened Http

  const DefaultAllowedHost := "content-management-public-content.canva.com"
  const UserAgent := "Mozilla/5.0 (X11; Linux) AppleWebKit/537.36 (KHTML, like Gecko) Chrome/100 Safari/537.36"
  const Referer := "https://www.canva.com"
  const DefaultUserId := "default"

  /** `ALLOWED_HOSTS`: `PROXY_ALLOWED_HOSTS` split at commas, the single
      default host when it is unset. Nothing is trimmed or dropped. */
  function AllowedHosts(env: Option<string>): (hosts: seq<string>)
    ensures |hosts| >= 1
    ensures env.Some? ==> Join(hosts, ',') == env.value
    ensures forall i :: 0 <= i < |hosts| ==> ',' !in hosts[i]
  {
    JoinSplit(env.GetOr(DefaultAllowedHost), ',');
    Split(env.GetOr(DefaultAllowedHost), ',')
  }

  /** With the variable unset, the default host is the only allowed one. */
  lemma DefaultAllowsOnlyContentHost()
    ensures AllowedHosts(None) == [DefaultAllowedHost]
  {
    assert ',' !in DefaultAllowedHost;
    SplitPrefix(DefaultAllowedHost, "", ',');
    assert DefaultAllowedHost + "" == DefaultAllowedHost;
  }

  /** A comma-free list of hosts written out as the variable is read back
      unchanged. */
  lemma AllowedHostsRoundTrip(hosts: seq<string>)
    requires |hosts| >= 1
    requires forall i :: 0 <= i < |hosts| ==> ',' !in hosts[i]
    ensures AllowedHosts(Some(Join(hosts, ','))) == hosts
  {
    SplitJoin(hosts, ',');
  }

  /** `verify_api_key`: with `BACKEND_API_KEY` unset or empty every request
      passes; otherwise `X-API-Key` must be present and equal to it, or the
      request is refused with 401. */
  function VerifyApiKey(expected: Option<string>, given: Option<string>): (r: Outcome<bool>)
    ensures r.Ok? ==> r.value
    ensures r.Raise? ==> r == Raise(401, "Unauthorized")
    ensures r.Ok? <==> expected.None? || expected.value == "" || given == expected
  {
    if expected.None? || expected.value == "" then Ok(true)
    else if given.None? || given.value == "" || given.value != expected.value then Raise(401, "Unauthorized")
    else Ok(true)
  }

  /** What `urlparse(url)` gives the route for a string url: it raises
      `ValueError` (an unbalanced bracket in the network location, say), or
      it parses and reports a `hostname`, possibly none. */
  datatype ParsedUrl = Unparsable | Parsed(hostname: Option<string>)

  /** The checks `proxy_fetch` makes before it builds any header, in order:
      the API key, then a truthy `url` in the body (400), then its host
      (403). A truthy `url` that is not a string, or a string `urlparse`
      rejects, makes the route raise, which answers 500. On success the url
      to fetch is returned. */
  function AdmitFetch(expected: Option<string>, given: Option<string>, url: Option<Value>,
                      parsed: ParsedUrl, allowed: seq<string>): (r: Outcome<string>)
    ensures VerifyApiKey(expected, given).Raise? ==> r == Raise(401, "Unauthorized")
    ensures VerifyApiKey(expected, given).Ok? && (url.None? || !Truthy(url.value)) ==>
      r == Raise(400, "missing url")
    ensures (&& VerifyApiKey(expected, given).Ok? && url.Some? && Truthy(url.value)
             && (!url.value.Str? || parsed.Unparsable?))
      ==> r == InternalError()
    ensures (&& VerifyApiKey(expected, given).Ok?
             && url.Some? && url.value.Str? && url.value.s != "" && parsed.Parsed?
             && (parsed.hostname.None? || parsed.hostname.value == "" || parsed.hostname.value !in allowed))
      ==> r == Raise(403, "host not allowed")
    ensures r.Ok? <==>
      && VerifyApiKey(expected, given).Ok?
      && url.Some? && url.value.Str? && url.value.s != "" && parsed.Parsed?
      && parsed.hostname.Some? && parsed.hostname.value != "" && parsed.hostname.value in allowed
    ensures r.Ok? ==> r.value == url.value.s
  {
    var gate := VerifyApiKey(expected, given);
    if gate.Raise? then Raise(gate.code, gate.detail)
    else if url.None? || !Truthy(url.value) then Raise(400, "missing url")
    else if !url.value.Str? || parsed.Unparsable? then InternalError()
    else
      var host := parsed.hostname;
      if host.None? || host.value == "" || host.value !in allowed then Raise(403, "host not allowed")
      else Ok(url.value.s)
  }

  /** A host that passes the check contains no comma, since no piece of the
      split variable does. */
  lemma AdmittedHostHasNoComma(expected: Option<string>, given: Option<string>, url: Option<Value>,
                               parsed: ParsedUrl, env: Option<string>)
    requires AdmitFetch(expected, given, url, parsed, AllowedHosts(env)).Ok?
    ensures parsed.Parsed? && parsed.hostname.Some? && ',' !in parsed.hostname.value
  {
    var hosts := AllowedHosts(env);
    var i :| 0 <= i < |hosts| && hosts[i] == parsed.hostname.value;
  }

  /** The OAuth token file as `_load_tokens()` and `tokens.get(user_id)` see
      it: `Unreadable` when reading or parsing it raises (a missing file
      reads as no tokens), or when its content is not a JSON object. */
  datatype TokenFile = Unreadable | Tokens(entries: map<string, StoredEntry>)

  /** One user's stored entry: an object, or some other JSON value. */
  datatype StoredEntry = NotAnObject | Object(fields: map<string, Value>)

  /** The stored token for `userId`: taken only from a non-empty object
      entry, its `access_token` if that is truthy, else its `token`. */
  function StoredToken(tokens: TokenFile, userId: string): (t: Value)
    ensures Truthy(t) ==> tokens.Tokens? && userId in tokens.entries && tokens.entries[userId].Object?
    ensures tokens.Tokens? && userId in tokens.entries && tokens.entries[userId].Object? ==>
      var fields := tokens.entries[userId].fields;
      if Truthy(Get(fields, "access_token", Null)) then t == fields["access_token"]
      else (Truthy(t) <==> Truthy(Get(fields, "token", Null))) && (Truthy(t) ==> t == fields["token"])
  {
    match tokens
    case Unreadable => Null
    case Tokens(entries) =>
      if userId !in entries then Null
      else
        match entries[userId]
        case NotAnObject => Null
        case Object(fields) =>
          if |fields| == 0 then Null
          else
            var access := Get(fields, "access_token", Null);
            if Truthy(access) then access else Get(fields, "token", Null)
  }

  /** The headers `proxy_fetch` sends. A non-empty `CANVA_ACCESS_TOKEN`
      always wins; otherwise the stored token of `CANVA_USER_ID` (default
      `"default"`) is used, and none at all if the lookup raises.
      `Authorization` is present exactly when the chosen token is truthy. */
  method FetchHeaders(envToken: Option<string>, envUserId: Option<string>, tokens: TokenFile)
    returns (headers: map<string, string>)
    ensures "User-Agent" in headers && headers["User-Agent"] == UserAgent
    ensures "Referer" in headers && headers["Referer"] == Referer
    ensures headers.Keys <= {"User-Agent", "Referer", "Authorization"}
    ensures envToken.Some? && envToken.value != "" ==>
      "Authorization" in headers && headers["Authorization"] == "Bearer " + envToken.value
    ensures envToken.None? || envToken.value == "" ==>
      var stored := StoredToken(tokens, envUserId.GetOr(DefaultUserId));
      && ("Authorization" in headers <==> Truthy(stored))
      && ("Authorization" in headers ==> headers["Authorization"] == "Bearer " + PyStr(stored))
  {
    headers := map["User-Agent" := UserAgent, "Referer" := Referer];
    var canvaToken: Value := if envToken.Some? then Str(envToken.value) else Null;
    if !Truthy(canvaToken) {
      match tokens
      case Unreadable =>
        canvaToken := Null;
      case Tokens(entries) =>
        var userId := envUserId.GetOr(DefaultUserId);
        if userId in entries {
          match entries[userId]
          case Object(fields) =>
            if |fields| > 0 {
              var access := Get(fields, "access_token", Null);
              canvaToken := if Truthy(access) then access else Get(fields, "token", Null);
            }
          case NotAnObject =>
        }
    }
    if Truthy(canvaToken) {
      headers := headers["Authorization" := "Bearer " + PyStr(canvaToken)];
    }
  }
}
