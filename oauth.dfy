/** The OAuth 2.0 PKCE login against the upstream and the token manager that
    caches, persists, refreshes and clears the credential record (oauth.py).
    The clock, the PKCE pair and the answers of the token endpoint are inputs:
    `now` is a whole number of seconds, a `TokenGrant` is a successful answer
    and None a failed one. */
module OAuth {
  import opened Wrappers
  import opened Json
  import opened Strings

  // ---------------------------------------------------------------------
  // The credential record
  // ---------------------------------------------------------------------

  /** OAuthTokens: the credential record; `expiresAt` is a Unix time in seconds. */
  datatype OAuthTokens = OAuthTokens(accessToken: string, refreshToken: string, expiresAt: int)

  /** The default safety margin of is_expired, in seconds. */
  const ExpiryBufferSeconds: int := 60

  /** is_expired: the token is treated as expired from `bufferSeconds` before its expiry on. */
  predicate IsExpired(t: OAuthTokens, now: int, bufferSeconds: int) {
    now >= t.expiresAt - bufferSeconds
  }

  /** With the default margin a record counts as expired once at most 60
      seconds of its life are left, and it stays expired as time goes on or
      the margin grows. */
  lemma ExpiryWindow(t: OAuthTokens, now: int, later: int, bufferSeconds: int, wider: int)
    requires now <= later && bufferSeconds <= wider
    ensures IsExpired(t, now, ExpiryBufferSeconds) <==> t.expiresAt - now <= 60
    ensures IsExpired(t, now, bufferSeconds) ==> IsExpired(t, later, bufferSeconds)
    ensures IsExpired(t, now, bufferSeconds) ==> IsExpired(t, now, wider)
  {
  }

  /** to_dict: the record as the JSON object written to the token file. */
  function ToDict(t: OAuthTokens): (j: Json)
    ensures j.JObj? && j.fields.Keys == {"access_token", "refresh_token", "expires_at"}
  {
    JObj(map["access_token" := JStr(t.accessToken),
             "refresh_token" := JStr(t.refreshToken),
             "expires_at" := JNum(t.expiresAt)])
  }

  /** from_dict: the record read back from a decoded token file; None when a
      key is missing (the source's KeyError) or the value is not an object or
      has a field of the wrong kind. Other keys are ignored. */
  function FromDict(j: Json): (r: Option<OAuthTokens>)
    ensures r.Some? ==> j.JObj? && "access_token" in j.fields && "refresh_token" in j.fields && "expires_at" in j.fields
    ensures r.Some? ==> j.fields["access_token"] == JStr(r.value.accessToken)
    ensures r.Some? ==> j.fields["refresh_token"] == JStr(r.value.refreshToken)
    ensures r.Some? ==> j.fields["expires_at"] == JNum(r.value.expiresAt)
    ensures j.JObj? && "access_token" in j.fields && "refresh_token" in j.fields && "expires_at" in j.fields &&
            j.fields["access_token"].JStr? && j.fields["refresh_token"].JStr? && j.fields["expires_at"].JNum? ==>
      r == Some(OAuthTokens(j.fields["access_token"].s, j.fields["refresh_token"].s, j.fields["expires_at"].n))
  {
    if !j.JObj? then None
    else
      var m := j.fields;
      if "access_token" in m && "refresh_token" in m && "expires_at" in m &&
         m["access_token"].JStr? && m["refresh_token"].JStr? && m["expires_at"].JNum?
      then Some(OAuthTokens(m["access_token"].s, m["refresh_token"].s, m["expires_at"].n))
      else None
  }

  /** Reading back what was written gives the same record. */
  lemma FromDictToDict(t: OAuthTokens)
    ensures FromDict(ToDict(t)) == Some(t)
  {
    var m := ToDict(t).fields;
    assert m["access_token"] == JStr(t.accessToken);
    assert m["refresh_token"] == JStr(t.refreshToken);
    assert m["expires_at"] == JNum(t.expiresAt);
  }

  // ---------------------------------------------------------------------
  // The authorization URL and the code exchange
  // ---------------------------------------------------------------------

  /** PKCEChallenge: the verifier and its S256 challenge, generated elsewhere. */
  datatype Pkce = Pkce(verifier: string, challenge: string)

  /** The default OAuth client id and endpoints of the proxy's settings. */
  const ClientId: string := "9d1c250a-e61b-44d9-88ed-5944d1962f5e"
  const AuthorizeUrl: string := "https://claude.ai/oauth/authorize"
  const RedirectUri: string := "https://console.anthropic.com/oauth/code/callback"
  const Scope: string := "org:create_api_key user:profile user:inference"

  /** The query parameters of the authorization URL, in order. */
  function AuthParams(pkce: Pkce): seq<(string, string)> {
    [("code", "true"),
     ("client_id", ClientId),
     ("response_type", "code"),
     ("redirect_uri", RedirectUri),
     ("scope", Scope),
     ("code_challenge", pkce.challenge),
     ("code_challenge_method", "S256"),
     ("state", pkce.verifier)]
  }

  /** `k=v` for each parameter. */
  function QueryFields(params: seq<(string, string)>): seq<string> {
    seq(|params|, i requires 0 <= i < |params| => params[i].0 + "=" + params[i].1)
  }

  /** The fields joined by '&' (the values are not URL-encoded). */
  function Query(params: seq<(string, string)>): string {
    Join("&", QueryFields(params))
  }

  /** build_auth_url. */
  function BuildAuthUrl(pkce: Pkce): string {
    AuthorizeUrl + "?" + Query(AuthParams(pkce))
  }

  /** None of the constant values contains '&'. */
  lemma ClientIdHasNoAmpersand()
    ensures '&' !in ClientId
  {
    assert ClientId == "9d1c250a-e61b" + "-44d9-88ed-" + "5944d1962f5e";
  }

  lemma RedirectUriHasNoAmpersand()
    ensures '&' !in RedirectUri
  {
    assert RedirectUri == "https://console" + ".anthropic.com" + "/oauth/code" + "/callback";
  }

  lemma ScopeHasNoAmpersand()
    ensures '&' !in Scope
  {
    assert Scope == "org:create_api_key" + " user:profile" + " user:inference";
  }

  /** No field of the authorization query contains '&' when the PKCE pair does not. */
  lemma QueryFieldsHaveNoAmpersand(pkce: Pkce)
    requires '&' !in pkce.verifier && '&' !in pkce.challenge
    ensures forall i :: 0 <= i < 8 ==> '&' !in QueryFields(AuthParams(pkce))[i]
  {
    ClientIdHasNoAmpersand();
    RedirectUriHasNoAmpersand();
    ScopeHasNoAmpersand();
    var fields := QueryFields(AuthParams(pkce));
    assert '&' !in fields[0];
    assert '&' !in fields[1];
    assert '&' !in fields[2];
    assert fields[3] == "redirect_uri=" + RedirectUri;
    assert fields[4] == "scope=" + Scope;
    assert fields[5] == "code_challenge=" + pkce.challenge;
    assert fields[6] == "code_challenge" + "_method=S256";
    assert fields[7] == "state=" + pkce.verifier;
  }

  /** The authorization query hands the PKCE pair to the upstream: splitting it on '&' gives
      the eight `k=v` fields in order, the sixth carrying the challenge and the
      last one carrying the verifier as `state`. */
  lemma AuthUrlCarriesPkce(pkce: Pkce)
    requires '&' !in pkce.verifier && '&' !in pkce.challenge
    ensures var fields := Split(Query(AuthParams(pkce)), '&');
      && |fields| == 8
      && fields[0] == "code=true"
      && fields[1] == "client_id=" + ClientId
      && fields[2] == "response_type=code"
      && fields[3] == "redirect_uri=" + RedirectUri
      && fields[4] == "scope=" + Scope
      && fields[5] == "code_challenge=" + pkce.challenge
      && fields[6] == "code_challenge_method=S256"
      && fields[7] == "state=" + pkce.verifier
    ensures Lookup(AuthParams(pkce), "state") == Some(pkce.verifier)
    ensures Lookup(AuthParams(pkce), "code_challenge") == Some(pkce.challenge)
  {
    var params := AuthParams(pkce);
    var fields := QueryFields(params);
    QueryFieldsHaveNoAmpersand(pkce);
    SplitJoin(fields, '&');
    assert "&" == ['&'];
  }

  /** build_auth_url: the authorize endpoint, '?', then the query; the text
      after the '?' is the query whatever the PKCE pair holds. */
  lemma AuthUrlShape(pkce: Pkce)
    ensures var url := BuildAuthUrl(pkce);
      && StartsWith(url, AuthorizeUrl + "?")
      && url[|AuthorizeUrl| + 1..] == Query(AuthParams(pkce))
  {
    var url := BuildAuthUrl(pkce);
    assert url == (AuthorizeUrl + "?") + Query(AuthParams(pkce));
  }

  /** build_auth_url hands the PKCE pair to the upstream: the URL starts with
      the authorize endpoint and '?', and the rest splits on '&' into the
      eight `k=v` fields, the sixth carrying the challenge, the seventh S256
      and the last the verifier as `state`. */
  lemma BuildAuthUrlCarriesPkce(pkce: Pkce)
    requires '&' !in pkce.verifier && '&' !in pkce.challenge
    ensures StartsWith(BuildAuthUrl(pkce), AuthorizeUrl + "?")
    ensures var fields := Split(BuildAuthUrl(pkce)[|AuthorizeUrl| + 1..], '&');
      && |fields| == 8
      && fields[5] == "code_challenge=" + pkce.challenge
      && fields[6] == "code_challenge_method=S256"
      && fields[7] == "state=" + pkce.verifier
  {
    AuthUrlShape(pkce);
    AuthUrlCarriesPkce(pkce);
  }

  /** The `code#state` rule of exchange_code: the code is the text before the
      first '#', the state the text between the first and the second '#' (or
      up to the end), and "" when there is no '#'. */
  function SplitAuthorizationCode(code: string): (r: (string, string))
    ensures '#' !in r.0 && '#' !in r.1
    ensures '#' !in code ==> r == (code, "")
    ensures '#' in code ==>
      var n := |r.0| + 1 + |r.1|;
      && StartsWith(code, r.0 + "#" + r.1)
      && (n == |code| || code[n] == '#')
  {
    var parts := Split(code, '#');
    CodeParts(code);
    (parts[0], if |parts| > 1 then parts[1] else "")
  }

  /** Where the first two parts of `code.split("#")` lie in `code`. */
  lemma CodeParts(code: string)
    ensures var parts := Split(code, '#');
      && (|parts| == 1 ==> parts[0] == code)
      && (|parts| > 1 ==> code == parts[0] + "#" + Join("#", parts[1..]))
      && (|parts| > 2 ==> Join("#", parts[1..]) == parts[1] + "#" + Join("#", parts[2..]))
  {
    var parts := Split(code, '#');
    SplitHead(code, '#');
    assert "#" == ['#'];
    if |parts| > 2 {
      assert parts[1..][1..] == parts[2..];
    }
  }

  /** The JSON body exchange_code posts to the token endpoint (grant_type
      "authorization_code", the client id and redirect URI are constants). */
  datatype CodeExchange = CodeExchange(code: string, state: string, codeVerifier: string)

  function CodeExchangeBody(code: string, verifier: string): CodeExchange {
    var (actual, state) := SplitAuthorizationCode(code);
    CodeExchange(actual, state, verifier)
  }

  /** A code pasted as "code#state" is sent as that code and state, a code
      without '#' as itself with an empty state, and the verifier always as given. */
  lemma CodeExchangeOfPastedCode(c: string, state: string, verifier: string)
    requires '#' !in c && '#' !in state
    ensures CodeExchangeBody(c + "#" + state, verifier) == CodeExchange(c, state, verifier)
    ensures CodeExchangeBody(c, verifier) == CodeExchange(c, "", verifier)
  {
    assert "#" == ['#'];
    assert Join("#", [c, state]) == c + "#" + state by {
      assert [c, state][1..] == [state];
    }
    SplitJoin([c, state], '#');
    SplitWithoutSeparator(c, '#');
  }

  /** A successful answer of the token endpoint. */
  datatype TokenGrant = TokenGrant(accessToken: string, refreshToken: string, expiresIn: int)

  /** The record built from a grant received at time `now`. */
  function TokensFromGrant(g: TokenGrant, now: int): (t: OAuthTokens)
    ensures t.accessToken == g.accessToken && t.refreshToken == g.refreshToken
    ensures forall b :: IsExpired(t, now, b) <==> g.expiresIn <= b
    ensures g.expiresIn > ExpiryBufferSeconds ==> !IsExpired(t, now, ExpiryBufferSeconds)
  {
    OAuthTokens(g.accessToken, g.refreshToken, now + g.expiresIn)
  }

  // ---------------------------------------------------------------------
  // The token manager
  // ---------------------------------------------------------------------

  /** The token file: absent, present but not valid JSON, or a decoded value. */
  datatype TokenFile = Missing | Unreadable | Stored(data: Json)

  /** The record a fresh read of the file yields, if any. */
  function RecordIn(file: TokenFile): Option<OAuthTokens> {
    match file
    case Stored(data) => FromDict(data)
    case _ => None
  }

  /** What load returns: the cached record if there is one, else the file's. */
  function LoadResult(cache: Option<OAuthTokens>, file: TokenFile): Option<OAuthTokens> {
    if cache.Some? then cache else RecordIn(file)
  }

  /** The verifier complete_auth_flow uses: a non-empty argument, else the one
      stored by start_auth_flow; None when that leaves no non-empty verifier. */
  function ChosenVerifier(verifier: Option<string>, pkce: Option<Pkce>): (v: Option<string>)
    ensures v.Some? ==> v.value != ""
    ensures verifier.Some? && verifier.value != "" ==> v == verifier
    ensures (verifier.None? || verifier.value == "") && pkce.Some? && pkce.value.verifier != "" ==> v == Some(pkce.value.verifier)
    ensures v.None? <==> (verifier.None? || verifier.value == "") && (pkce.None? || pkce.value.verifier == "")
  {
    var v := if verifier.Some? && verifier.value != "" then verifier
             else if pkce.Some? then Some(pkce.value.verifier) else None;
    if v.Some? && v.value != "" then v else None
  }

  /** The cache and token file get_valid_token leaves behind, from the cache
      and file it starts with: a token is handed out exactly when a record is
      loaded and is either still fresh or refreshed; a record other than the
      loaded one is the grant's and is what the file now holds; the file
      changes only to that record or to nothing. */
  function StateAfterGetToken(cache: Option<OAuthTokens>, file: TokenFile, now: int, grant: Option<TokenGrant>)
    : (s: (Option<OAuthTokens>, TokenFile))
    ensures var loaded := LoadResult(cache, file);
      s.0.Some? <==> loaded.Some? && (!IsExpired(loaded.value, now, ExpiryBufferSeconds) || grant.Some?)
    ensures s.0.Some? && s.0 != LoadResult(cache, file) ==>
      grant.Some? && s.0 == Some(TokensFromGrant(grant.value, now)) && RecordIn(s.1) == s.0
    ensures s.1 != file ==> (s.0.None? && s.1.Missing?) || (s.0.Some? && RecordIn(s.1) == s.0)
  {
    var loaded := LoadResult(cache, file);
    if loaded.None? then (None, file)
    else if !IsExpired(loaded.value, now, ExpiryBufferSeconds) then (loaded, file)
    else if grant.Some? then
      var renewed := TokensFromGrant(grant.value, now);
      FromDictToDict(renewed);
      (Some(renewed), Stored(ToDict(renewed)))
    else (None, Missing)
  }

  /** The access token of a cached record. */
  function AccessToken(cache: Option<OAuthTokens>): Option<string> {
    if cache.Some? then Some(cache.value.accessToken) else None
  }

  /** The states of the login: no usable record, a login started and not
      completed, a usable record. */
  datatype Phase = Unauthenticated | PendingAuthorization | Authenticated

  /** TokenManager: the cached record, the pending PKCE pair and the token file. */
  class TokenManager {
    var tokens: Option<OAuthTokens>
    var pkce: Option<Pkce>
    var file: TokenFile

    /** The cache never disagrees with the file: a cached record is what the
        file would yield on a fresh read. */
    ghost predicate Valid()
      reads this
    {
      tokens.Some? ==> RecordIn(file) == tokens
    }

    /** The login state this manager is in. */
    function CurrentPhase(): Phase
      reads this
    {
      if LoadResult(tokens, file).Some? then Authenticated
      else if pkce.Some? then PendingAuthorization
      else Unauthenticated
    }

    constructor(file: TokenFile)
      ensures Valid()
      ensures this.file == file && tokens.None? && pkce.None?
    {
      this.file := file;
      tokens := None;
      pkce := None;
    }

    /** load: the cached record without consulting the file; otherwise the
        file's record, which is then cached; None for a missing or malformed file. */
    method Load() returns (r: Option<OAuthTokens>)
      requires Valid()
      modifies this`tokens
      ensures Valid()
      ensures r == LoadResult(old(tokens), file) && tokens == r
      ensures old(tokens).Some? ==> r == old(tokens)
    {
      if tokens.Some? {
        return tokens;
      }
      if file.Missing? || file.Unreadable? {
        return None;
      }
      var t := FromDict(file.data);
      if t.None? {
        return None;
      }
      tokens := t;
      return t;
    }

    /** save: cache the record and write it to the file. */
    method Save(t: OAuthTokens)
      requires Valid()
      modifies this`tokens, this`file
      ensures Valid()
      ensures tokens == Some(t) && file == Stored(ToDict(t))
      ensures RecordIn(file) == Some(t)
    {
      tokens := Some(t);
      file := Stored(ToDict(t));
      FromDictToDict(t);
    }

    /** clear: forget the cached record and remove the file. */
    method Clear()
      requires Valid()
      modifies this`tokens, this`file
      ensures Valid()
      ensures tokens.None? && file.Missing?
      ensures LoadResult(tokens, file).None?
    {
      tokens := None;
      if !file.Missing? {
        file := Missing;
      }
    }

    /** start_auth_flow: remember the fresh PKCE pair and return the
        authorization URL and the verifier. */
    method StartAuthFlow(generated: Pkce) returns (url: string, verifier: string)
      requires Valid()
      modifies this`pkce
      ensures Valid()
      ensures pkce == Some(generated)
      ensures url == BuildAuthUrl(generated) && verifier == generated.verifier
      ensures CurrentPhase() == if old(CurrentPhase()) == Authenticated then Authenticated else PendingAuthorization
    {
      pkce := Some(generated);
      url := BuildAuthUrl(generated);
      verifier := generated.verifier;
    }

    /** complete_auth_flow: exchange the code with the chosen verifier; on
        success save the record and drop the PKCE pair. `request` is the body
        sent to the token endpoint (None: no request was made) and `grant` its
        answer. */
    method CompleteAuthFlow(code: string, verifier: Option<string>, now: int, grant: Option<TokenGrant>)
      returns (ok: bool, request: Option<CodeExchange>)
      requires Valid()
      modifies this
      ensures Valid()
      ensures var v := ChosenVerifier(verifier, old(pkce));
        && (v.None? ==> !ok && request.None? && tokens == old(tokens) && file == old(file) && pkce == old(pkce))
        && (v.Some? ==> request == Some(CodeExchangeBody(code, v.value)))
        && (v.Some? && grant.Some? ==>
              ok && tokens == Some(TokensFromGrant(grant.value, now)) &&
              file == Stored(ToDict(TokensFromGrant(grant.value, now))) && pkce.None? &&
              CurrentPhase() == Authenticated)
        && (v.Some? && grant.None? ==> !ok && tokens == old(tokens) && file == old(file) && pkce == old(pkce))
    {
      var v := ChosenVerifier(verifier, pkce);
      if v.None? {
        return false, None;
      }
      request := Some(CodeExchangeBody(code, v.value));
      if grant.None? {
        return false, request;
      }
      Save(TokensFromGrant(grant.value, now));
      pkce := None;
      ok := true;
    }

    /** get_valid_token: the access token of the loaded record, refreshed first
        when it is within the margin of its expiry; a failed refresh clears all
        tokens. `refreshedWith` is the refresh token sent to the token endpoint
        (None: no refresh was attempted) and `grant` its answer. */
    method GetValidToken(now: int, grant: Option<TokenGrant>) returns (token: Option<string>, refreshedWith: Option<string>)
      requires Valid()
      modifies this`tokens, this`file
      ensures Valid()
      ensures (tokens, file) == StateAfterGetToken(old(tokens), old(file), now, grant)
      ensures token == AccessToken(tokens)
      ensures token.Some? ==> RecordIn(file) == tokens
      ensures var loaded := LoadResult(old(tokens), old(file));
        && (loaded.None? ==> token.None? && refreshedWith.None? && tokens.None? && file == old(file))
        && (loaded.Some? && !IsExpired(loaded.value, now, ExpiryBufferSeconds) ==>
              token == Some(loaded.value.accessToken) && refreshedWith.None? &&
              loaded.value.expiresAt > now + ExpiryBufferSeconds &&
              tokens == loaded && file == old(file))
        && (loaded.Some? && IsExpired(loaded.value, now, ExpiryBufferSeconds) ==>
              refreshedWith == Some(loaded.value.refreshToken))
        && (loaded.Some? && IsExpired(loaded.value, now, ExpiryBufferSeconds) && grant.Some? ==>
              token == Some(grant.value.accessToken) &&
              tokens == Some(TokensFromGrant(grant.value, now)) &&
              file == Stored(ToDict(TokensFromGrant(grant.value, now))))
        && (loaded.Some? && IsExpired(loaded.value, now, ExpiryBufferSeconds) && grant.None? ==>
              token.None? && tokens.None? && file.Missing?)
    {
      refreshedWith := None;
      var t := Load();
      if t.None? {
        return None, None;
      }
      var current := t.value;
      if IsExpired(current, now, ExpiryBufferSeconds) {
        refreshedWith := Some(current.refreshToken);
        if grant.Some? {
          var renewed := TokensFromGrant(grant.value, now);
          Save(renewed);
          current := renewed;
        } else {
          Clear();
          return None, refreshedWith;
        }
      }
      token := Some(current.accessToken);
    }

    /** is_authenticated: whether load yields a record. */
    method IsAuthenticated() returns (b: bool)
      requires Valid()
      modifies this`tokens
      ensures Valid()
      ensures b <==> LoadResult(old(tokens), file).Some?
      ensures b ==> RecordIn(file) == tokens
      ensures tokens == LoadResult(old(tokens), file)
    {
      var t := Load();
      b := t.Some?;
    }
  }

  /** A record saved by one manager is what a manager started afresh over the
      same file loads (the record survives a restart). */
  method SaveThenReload(t: OAuthTokens, file: TokenFile) returns (r: Option<OAuthTokens>)
    ensures r == Some(t)
  {
    var before := new TokenManager(file);
    before.Save(t);
    var after := new TokenManager(before.file);
    r := after.Load();
  }

  /** After logout no token is handed out, whatever the file held and however
      a refresh would be answered. */
  method LogoutThenToken(file: TokenFile, now: int, grant: Option<TokenGrant>) returns (token: Option<string>)
    ensures token.None?
  {
    var manager := new TokenManager(file);
    var _ := manager.Load();
    manager.Clear();
    var refreshedWith;
    token, refreshedWith := manager.GetValidToken(now, grant);
  }
}
