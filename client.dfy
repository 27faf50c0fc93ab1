/**
 * The hand-rolled XRPC client: one stored session behind a lock, refreshed
 * lazily before each authenticated call, and the two lookups that fetch a
 * post by handle and record key.
 *
 * The network is a parameter: each call receives the credential the client
 * attaches to it (`auth`) and returns the server's answer.  Every method that
 * talks to the network also returns the calls it made, in order.
 */
module Client {
  import opened Wrappers
  import opened Api
  import opened Session

  /** The three XRPC procedures the client calls, as functions of the credential attached and the parameters. */
  datatype Network = Network(
    refreshSession: Option<string> -> Result<RefreshSessionOutput, string>,
    getProfile: (Option<string>, string) -> Result<ProfileViewDetailed, string>,
    getPosts: (Option<string>, seq<string>) -> Result<seq<PostView>, string>)

  /** One request sent to the server, with the credential attached to it. */
  datatype Call =
    | RefreshSessionCall(auth: Option<string>)
    | GetProfileCall(auth: Option<string>, actor: string)
    | GetPostsCall(auth: Option<string>, uris: seq<string>)

  datatype ClientError =
    | SessionPoisoned                     // "session mutex is poisoned"
    | RefreshFailed(reason: string)       // the refresh call itself failed
    | BadRefreshedToken(cause: SessionError)
    | ProfileLookupFailed(reason: string)
    | PostsLookupFailed(reason: string)
    | PostNotFound(id: string, handle: string)  // "Couldn't find post {id} for {handle}"
    | LoginFailed(reason: string)
    | BadLoginToken(cause: SessionError)

  const Collection := "app.bsky.feed.post"

  /** The access token has expired once `now` is strictly past its expiry. */
  predicate Expired(now: Instant, s: BSkySession) {
    now > s.accessJwtExp
  }

  /** The result of `ensure_token_valid` on a lock state: outcome, stored session afterwards, calls made. */
  datatype Refresh = Refresh(outcome: Outcome<ClientError>, session: BSkySession, calls: seq<Call>)

  /**
   * `ensure_token_valid`: a poisoned lock is an error; an unexpired token
   * is left alone without any call; an expired one is refreshed with the
   * stored refresh token and the session replaced whole, but only when both
   * the refresh call and the decoding of the new access token succeed.
   */
  function EnsureTokenValidSpec(codec: TokenCodec, net: Network, poisoned: bool, s: BSkySession, now: Instant): (r: Refresh)
    ensures poisoned ==> r == Refresh(Fail(SessionPoisoned), s, [])
    ensures !poisoned && !Expired(now, s) ==> r == Refresh(Pass, s, [])
    ensures !poisoned && Expired(now, s) ==> r.calls == [RefreshSessionCall(Some(s.refreshJwt))]
    ensures !poisoned && Expired(now, s) ==>
      var refreshed := net.refreshSession(Some(s.refreshJwt));
      && (r.outcome.Pass? <==> refreshed.Success? && FromRefreshSession(codec, refreshed.value).Success?)
      && (r.outcome.Pass? ==> r.session == FromRefreshSession(codec, refreshed.value).value)
    ensures r.outcome.Fail? ==> r.session == s
    ensures r.session != s ==>
      && r.outcome.Pass? && Expired(now, s)
      && net.refreshSession(Some(s.refreshJwt)).Success?
      && FromRefreshSession(codec, net.refreshSession(Some(s.refreshJwt)).value) == Success(r.session)
    ensures Consistent(codec, s) ==> Consistent(codec, r.session)
  {
    if poisoned then Refresh(Fail(SessionPoisoned), s, [])
    else if !Expired(now, s) then Refresh(Pass, s, [])
    else
      var calls := [RefreshSessionCall(Some(s.refreshJwt))];
      match net.refreshSession(Some(s.refreshJwt))
      case Failure(e) => Refresh(Fail(RefreshFailed(e)), s, calls)
      case Success(out) =>
        match FromRefreshSession(codec, out)
        case Failure(e) => Refresh(Fail(BadRefreshedToken(e)), s, calls)
        case Success(renewed) => Refresh(Pass, renewed, calls)
  }

  /** An expired session whose refresh and decode both succeed is replaced in all three fields. */
  lemma RefreshReplacesWholeSession(codec: TokenCodec, net: Network, s: BSkySession, now: Instant, out: RefreshSessionOutput)
    requires Expired(now, s)
    requires net.refreshSession(Some(s.refreshJwt)) == Success(out)
    requires FromRefreshSession(codec, out).Success?
    ensures var r := EnsureTokenValidSpec(codec, net, false, s, now);
      && r.outcome == Pass
      && r.session.accessJwt == out.accessJwt
      && r.session.refreshJwt == out.refreshJwt
      && Consistent(codec, r.session)
  {
  }

  /** The canonical address of a post: `at://<did>/app.bsky.feed.post/<id>`. */
  function PostUri(did: string, id: string): (uri: string)
    ensures |uri| == |did| + |Collection| + |id| + 7
    ensures uri[..5] == "at://" && uri[5..5 + |did|] == did
    ensures uri[5 + |did|..7 + |did| + |Collection|] == "/" + Collection + "/"
    ensures uri[|uri| - |id|..] == id
  {
    "at://" + did + "/" + Collection + "/" + id
  }

  /** The index of the first `c` in `s`, or `|s|` when there is none. */
  function IndexOf(s: string, c: char): (k: nat)
    ensures k <= |s|
    ensures forall i :: 0 <= i < k ==> s[i] != c
    ensures k < |s| ==> s[k] == c
  {
    if s == [] || s[0] == c then 0 else 1 + IndexOf(s[1..], c)
  }

  /** Splits a post address back into the author's identifier and the record key. */
  function ParsePostUri(uri: string): Option<(string, string)> {
    var scheme := "at://";
    var path := "/" + Collection + "/";
    if |uri| < |scheme| || uri[..|scheme|] != scheme then None
    else
      var rest := uri[|scheme|..];
      var k := IndexOf(rest, '/');
      var tail := rest[k..];
      if |tail| < |path| || tail[..|path|] != path then None
      else Some((rest[..k], tail[|path|..]))
  }

  /** A post address names its author and record back, so distinct (did, id) pairs get distinct addresses. */
  lemma PostUriRoundTrip(did: string, id: string)
    requires '/' !in did
    ensures ParsePostUri(PostUri(did, id)) == Some((did, id))
  {
    var uri := PostUri(did, id);
    var path := "/" + Collection + "/";
    var rest := uri[5..];
    assert rest[..|did|] == did;
    assert rest[|did|..] == uri[5 + |did|..];
    var k := IndexOf(rest, '/');
    assert forall i :: 0 <= i < |did| ==> rest[i] == did[i];
    assert rest[|did|] == '/';
    assert k == |did|;
    var tail := rest[k..];
    assert tail[..|path|] == path;
    assert tail[|path|..] == id;
  }

  lemma PostUriInjective(did1: string, id1: string, did2: string, id2: string)
    requires '/' !in did1 && '/' !in did2
    requires PostUri(did1, id1) == PostUri(did2, id2)
    ensures did1 == did2 && id1 == id2
  {
    PostUriRoundTrip(did1, id1);
    PostUriRoundTrip(did2, id2);
  }

  /** `posts.into_iter().next().ok_or_else(..)`: the first post, or an error naming the id and handle. */
  function FirstOrNotFound(posts: seq<PostView>, handle: string, id: string): (r: Result<PostView, ClientError>)
    ensures r.Success? <==> |posts| > 0
    ensures r.Success? ==> r.value == posts[0]
    ensures r.Failure? ==> r.error == PostNotFound(id, handle)
  {
    if |posts| == 0 then Failure(PostNotFound(id, handle)) else Success(posts[0])
  }

  /** The result of `get_post`: the post or an error, the stored session afterwards, the calls made. */
  datatype Fetch = Fetch(result: Result<PostView, ClientError>, session: BSkySession, calls: seq<Call>)

  /**
   * `get_post`: check the token, resolve the handle to a DID, look the
   * canonical address up, take the first post.  Each lookup carries the
   * (possibly refreshed) access token.
   */
  function GetPostSpec(codec: TokenCodec, net: Network, poisoned: bool, s: BSkySession, now: Instant, handle: string, id: string): (r: Fetch)
    ensures var v := EnsureTokenValidSpec(codec, net, poisoned, s, now);
      && r.session == v.session
      && v.calls <= r.calls
      && (v.outcome.Fail? ==> r.result == Failure(v.outcome.error) && r.calls == v.calls)
    ensures r.result.Success? ==>
      var auth := Some(r.session.accessJwt);
      && net.getProfile(auth, handle).Success?
      && var uri := PostUri(net.getProfile(auth, handle).value.did, id);
      && |r.calls| >= 2
      && r.calls[|r.calls| - 2..] == [GetProfileCall(auth, handle), GetPostsCall(auth, [uri])]
      && net.getPosts(auth, [uri]).Success?
      && |net.getPosts(auth, [uri]).value| > 0
      && r.result.value == net.getPosts(auth, [uri]).value[0]
    ensures var v := EnsureTokenValidSpec(codec, net, poisoned, s, now);
      v.outcome.Pass? ==>
        var auth := Some(v.session.accessJwt);
        var profileCall := GetProfileCall(auth, handle);
        match net.getProfile(auth, handle)
        case Failure(e) =>
          r.result == Failure(ProfileLookupFailed(e)) && r.calls == v.calls + [profileCall]
        case Success(profile) =>
          var uri := PostUri(profile.did, id);
          && r.calls == v.calls + [profileCall, GetPostsCall(auth, [uri])]
          && match net.getPosts(auth, [uri])
             case Failure(e) => r.result == Failure(PostsLookupFailed(e))
             case Success(posts) => r.result == FirstOrNotFound(posts, handle, id)
  {
    var v := EnsureTokenValidSpec(codec, net, poisoned, s, now);
    if v.outcome.Fail? then Fetch(Failure(v.outcome.error), v.session, v.calls)
    else
      var auth := Some(v.session.accessJwt);
      var afterProfile := v.calls + [GetProfileCall(auth, handle)];
      match net.getProfile(auth, handle)
      case Failure(e) => Fetch(Failure(ProfileLookupFailed(e)), v.session, afterProfile)
      case Success(profile) =>
        var uri := PostUri(profile.did, id);
        var afterPosts := afterProfile + [GetPostsCall(auth, [uri])];
        match net.getPosts(auth, [uri])
        case Failure(e) => Fetch(Failure(PostsLookupFailed(e)), v.session, afterPosts)
        case Success(posts) => Fetch(FirstOrNotFound(posts, handle, id), v.session, afterPosts)
  }

  /** A resolved actor with no post at the address gives PostNotFound, after exactly the two lookups. */
  lemma EmptyPostsIsNotFound(codec: TokenCodec, net: Network, poisoned: bool, s: BSkySession, now: Instant, handle: string, id: string)
    requires EnsureTokenValidSpec(codec, net, poisoned, s, now).outcome.Pass?
    requires var auth := Some(EnsureTokenValidSpec(codec, net, poisoned, s, now).session.accessJwt);
      && net.getProfile(auth, handle).Success?
      && net.getPosts(auth, [PostUri(net.getProfile(auth, handle).value.did, id)]) == Success([])
    ensures GetPostSpec(codec, net, poisoned, s, now, handle, id).result == Failure(PostNotFound(id, handle))
  {
  }

  /** The client: the transport's token codec, the stored session and the state of its lock. */
  class BSky {
    const codec: TokenCodec
    var session: BSkySession
    /** The lock is poisoned once a holder panicked; nothing in this model panics, so only the environment sets it. */
    var poisoned: bool

    ghost predicate Valid()
      reads this
    {
      Consistent(codec, session)
    }

    constructor (codec: TokenCodec, session: BSkySession)
      requires Consistent(codec, session)
      ensures Valid() && this.codec == codec && this.session == session && !poisoned
    {
      this.codec := codec;
      this.session := session;
      this.poisoned := false;
    }

    /** `login`: a client holding the session built from the create-session output, or the error. */
    static method Login(codec: TokenCodec, created: Result<CreateSessionOutput, string>) returns (r: Result<BSky, ClientError>)
      ensures created.Failure? ==> r == Failure(LoginFailed(created.error))
      ensures created.Success? && FromCreateSession(codec, created.value).Failure? ==>
        r == Failure(BadLoginToken(FromCreateSession(codec, created.value).error))
      ensures created.Success? && FromCreateSession(codec, created.value).Success? ==>
        && r.Success? && fresh(r.value) && r.value.Valid() && r.value.codec == codec && !r.value.poisoned
        && r.value.session == FromCreateSession(codec, created.value).value
    {
      match created
      case Failure(e) =>
        r := Failure(LoginFailed(e));
      case Success(out) =>
        match FromCreateSession(codec, out)
        case Failure(e) =>
          r := Failure(BadLoginToken(e));
        case Success(s) =>
          var client := new BSky(codec, s);
          r := Success(client);
    }

    /** `XrpcClient::host`: an https origin with no path. */
    function Host(): (h: string)
      ensures |h| > 8 && h[..8] == "https://" && '/' !in h[8..]
    {
      "https://bsky.social"
    }

    /**
     * `XrpcClient::auth`: the refresh token when asked for it, otherwise the
     * access token; nothing when the lock is poisoned.  Reading never
     * changes the session.
     */
    function Auth(isRefresh: bool): (t: Option<string>)
      reads this
      ensures t.None? <==> poisoned
      ensures t.Some? && isRefresh ==> t.value == session.refreshJwt
      ensures t.Some? && !isRefresh ==> t.value == session.accessJwt
    {
      if poisoned then None
      else if isRefresh then Some(session.refreshJwt)
      else Some(session.accessJwt)
    }

    method EnsureTokenValid(net: Network, now: Instant) returns (r: Outcome<ClientError>, calls: seq<Call>)
      requires Valid()
      modifies this`session
      ensures Valid()
      ensures Refresh(r, session, calls) == EnsureTokenValidSpec(codec, net, poisoned, old(session), now)
    {
      calls := [];
      if poisoned {
        return Fail(SessionPoisoned), calls;
      }
      var expired := now > session.accessJwtExp;
      if expired {
        var credential := Auth(true);
        calls := calls + [RefreshSessionCall(credential)];
        var refreshed := net.refreshSession(credential);
        if refreshed.Failure? {
          return Fail(RefreshFailed(refreshed.error)), calls;
        }
        if poisoned {
          return Fail(SessionPoisoned), calls;
        }
        var converted := FromRefreshSession(codec, refreshed.value);
        if converted.Failure? {
          return Fail(BadRefreshedToken(converted.error)), calls;
        }
        session := converted.value;
      }
      r := Pass;
    }

    method GetPost(net: Network, now: Instant, handle: string, id: string) returns (r: Result<PostView, ClientError>, calls: seq<Call>)
      requires Valid()
      modifies this`session
      ensures Valid()
      ensures Fetch(r, session, calls) == GetPostSpec(codec, net, poisoned, old(session), now, handle, id)
    {
      var valid;
      valid, calls := EnsureTokenValid(net, now);
      if valid.Fail? {
        return Failure(valid.error), calls;
      }
      var credential := Auth(false);
      calls := calls + [GetProfileCall(credential, handle)];
      var profile := net.getProfile(credential, handle);
      if profile.Failure? {
        return Failure(ProfileLookupFailed(profile.error)), calls;
      }
      var uri := PostUri(profile.value.did, id);
      calls := calls + [GetPostsCall(credential, [uri])];
      var posts := net.getPosts(credential, [uri]);
      if posts.Failure? {
        return Failure(PostsLookupFailed(posts.error)), calls;
      }
      r := FirstOrNotFound(posts.value, handle, id);
    }
  }
}
