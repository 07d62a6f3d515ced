/**
 The login state of the spider: the credentials it holds, the cookie jar and
 CSRF header it sends, the `is_logged_in` flag, and the session file that
 carries the credentials from one run to the next. Whether the server
 accepts a session (`_verify_session`) is an input.
 */
module Session {
  import opened PyJson

  /** The client's fields. The credentials are JSON values because a
      session file can hold anything under their keys; `None` is `JNull`. */
  datatype Client = Client(
    sessionId: Json, csrfToken: Json, wwwClaim: Json, username: Json,
    loggedIn: bool,
    cookies: map<string, Json>,
    csrfHeader: Option<Json>)

  /** The session file: absent, present but not valid JSON, or a document. */
  datatype SessionFile = Missing | Unreadable | Stored(doc: Json)

  datatype World = World(client: Client, file: SessionFile)

  /** A client before `_try_load_session` has run. */
  const Fresh: Client := Client(JNull, JNull, JNull, JNull, false, map[], None)

  /** `_set_cookies`: a truthy session id goes to the `sessionid` cookie; a
      truthy CSRF token goes to the `csrftoken` cookie and the `X-CSRFToken`
      header. */
  function SetCookies(c: Client): (r: Client)
    ensures r.(cookies := c.cookies, csrfHeader := c.csrfHeader) == c
    ensures "sessionid" in r.cookies <==> "sessionid" in c.cookies || Truthy(c.sessionId)
    ensures Truthy(c.sessionId) ==> r.cookies["sessionid"] == c.sessionId
    ensures Truthy(c.csrfToken) ==> "csrftoken" in r.cookies && r.cookies["csrftoken"] == c.csrfToken
    ensures Truthy(c.csrfToken) ==> r.csrfHeader == Some(c.csrfToken)
    ensures !Truthy(c.csrfToken) ==> r.csrfHeader == c.csrfHeader
  {
    var c1 := if Truthy(c.sessionId) then c.(cookies := c.cookies["sessionid" := c.sessionId]) else c;
    if Truthy(c.csrfToken)
    then c1.(cookies := c1.cookies["csrftoken" := c.csrfToken], csrfHeader := Some(c.csrfToken))
    else c1
  }

  /** The document `_save_session` writes; `now` is the `saved_at` timestamp. */
  function SaveDoc(c: Client, now: string): (r: Json)
    ensures r.JObj? && |r.fields| == 5
  {
    JObj([("session_id", c.sessionId), ("csrf_token", c.csrfToken), ("ig_www_claim", c.wwwClaim),
          ("username", c.username), ("saved_at", JStr(now))])
  }

  /** Each credential is stored under its own key, so a later load reads
      back exactly what was saved. */
  lemma SaveDocFields(c: Client, now: string)
    ensures var r := SaveDoc(c, now);
            && Get(r, "session_id") == Ok(c.sessionId)
            && Get(r, "csrf_token") == Ok(c.csrfToken)
            && Get(r, "ig_www_claim") == Ok(c.wwwClaim)
            && Get(r, "username") == Ok(c.username)
            && Get(r, "saved_at") == Ok(JStr(now))
  {
    var e1, e2, e3 := ("session_id", c.sessionId), ("csrf_token", c.csrfToken), ("ig_www_claim", c.wwwClaim);
    var e4, e5 := ("username", c.username), ("saved_at", JStr(now));
    var tail5 := [e5];
    var tail4 := [e4] + tail5;
    var tail3 := [e3] + tail4;
    var tail2 := [e2] + tail3;
    assert SaveDoc(c, now) == JObj([e1] + tail2);
    LookupFirst("session_id", c.sessionId, tail2);
    LookupSkip("session_id", c.sessionId, tail2, "csrf_token");
    LookupFirst("csrf_token", c.csrfToken, tail3);
    LookupSkip("session_id", c.sessionId, tail2, "ig_www_claim");
    LookupSkip("csrf_token", c.csrfToken, tail3, "ig_www_claim");
    LookupFirst("ig_www_claim", c.wwwClaim, tail4);
    LookupSkip("session_id", c.sessionId, tail2, "username");
    LookupSkip("csrf_token", c.csrfToken, tail3, "username");
    LookupSkip("ig_www_claim", c.wwwClaim, tail4, "username");
    LookupFirst("username", c.username, tail5);
    LookupSkip("session_id", c.sessionId, tail2, "saved_at");
    LookupSkip("csrf_token", c.csrfToken, tail3, "saved_at");
    LookupSkip("ig_www_claim", c.wwwClaim, tail4, "saved_at");
    LookupSkip("username", c.username, tail5, "saved_at");
    LookupFirst("saved_at", JStr(now), []);
  }

  /** `x.strip() if x else None` for an optional argument. */
  function StripOptional(x: Option<string>): (r: Json)
    ensures r == JNull <==> x == None || x == Some("")
  {
    match x
    case Some(s) => if s == "" then JNull else JStr(Strip(s))
    case None => JNull
  }

  /** `set_session_id(session_id, csrf_token, ig_www_claim)`: store the
      stripped credentials, set the cookies, then, only if the server
      accepts the session, raise the flag and save the file. A rejected
      session leaves the flag and the file as they were. */
  function SetSessionId(w: World, sessionId: string, csrfToken: Option<string>,
                        wwwClaim: Option<string>, verified: bool, now: string): (r: (bool, World))
    ensures r.0 == verified
    ensures r.1.client.sessionId == JStr(Strip(sessionId))
    ensures r.1.client.csrfToken == StripOptional(csrfToken)
    ensures r.1.client.wwwClaim == StripOptional(wwwClaim)
    ensures r.1.client.username == w.client.username
    ensures r.1.client.loggedIn == (verified || w.client.loggedIn)
    ensures verified ==> r.1.file == Stored(SaveDoc(r.1.client, now))
    ensures !verified ==> r.1.file == w.file
    ensures Strip(sessionId) != "" ==>
              "sessionid" in r.1.client.cookies && r.1.client.cookies["sessionid"] == JStr(Strip(sessionId))
  {
    var c := w.client.(sessionId := JStr(Strip(sessionId)),
                       csrfToken := StripOptional(csrfToken),
                       wwwClaim := StripOptional(wwwClaim));
    var c1 := SetCookies(c);
    if verified then
      var c2 := c1.(loggedIn := true);
      (true, World(c2, Stored(SaveDoc(c2, now))))
    else (false, World(c1, w.file))
  }

  /** `logout()`: delete the file, forget the session id, the CSRF token
      and the username, lower the flag and clear the cookie jar. The
      `ig_www_claim` and the `X-CSRFToken` header are left as they were. */
  function Logout(w: World): (r: World)
    ensures r.file == Missing
    ensures r.client.sessionId == JNull && r.client.csrfToken == JNull && r.client.username == JNull
    ensures !r.client.loggedIn && r.client.cookies == map[]
    ensures r.client.wwwClaim == w.client.wwwClaim && r.client.csrfHeader == w.client.csrfHeader
  {
    World(w.client.(sessionId := JNull, csrfToken := JNull, loggedIn := false,
                    username := JNull, cookies := map[]),
          Missing)
  }

  /** `_try_load_session()`: read the file into the fields, and when it
      holds a truthy session id, set the cookies and raise the flag if the
      server accepts the session. A missing or unreadable file, or a
      document that is not a dict, changes nothing. */
  function TryLoadSession(w: World, verified: bool): (r: (bool, World))
    ensures r.1.file == w.file
    ensures r.0 <==> w.file.Stored? && w.file.doc.JObj? &&
                     Truthy(Get(w.file.doc, "session_id").value) && verified
    ensures r.1.client.loggedIn == (r.0 || w.client.loggedIn)
    ensures !(w.file.Stored? && w.file.doc.JObj?) ==> r.1 == w
  {
    match w.file
    case Stored(doc) =>
      if !doc.JObj? then (false, w)
      else
        var c := w.client.(sessionId := Get(doc, "session_id").value,
                           csrfToken := Get(doc, "csrf_token").value,
                           wwwClaim := Get(doc, "ig_www_claim").value,
                           username := Get(doc, "username").value);
        if Truthy(c.sessionId) then
          var c1 := SetCookies(c);
          if verified then (true, World(c1.(loggedIn := true), w.file))
          else (false, World(c1, w.file))
        else (false, World(c, w.file))
    case _ => (false, w)
  }

  /** `str(x)` in the status line, for the values a username can take. */
  function Display(j: Json): string {
    match j
    case JArr(_) => "[...]"
    case JObj(_) => "{...}"
    case _ => PyStr(j)
  }

  /** `get_login_status()`. */
  function LoginStatus(c: Client): (r: string)
    ensures c.loggedIn && Truthy(c.username) ==> r == "已登录: @" + Display(c.username)
    ensures c.loggedIn && !Truthy(c.username) ==> r == "已登录"
    ensures !c.loggedIn <==> r == "未登录"
  {
    if c.loggedIn then
      var r := "已登录" + (if Truthy(c.username) then ": @" + Display(c.username) else "");
      assert r[0] != "未登录"[0];
      r
    else "未登录"
  }

  // ---------------------------------------------------------------------
  // Properties across calls

  /** What a save followed by a load in a new process gives back: the same
      credentials, and the flag exactly when the saved session id is
      non-empty and the server still accepts it. */
  lemma SaveThenLoad(w: World, sessionId: string, csrfToken: Option<string>,
                     wwwClaim: Option<string>, now: string, verifiedLater: bool)
    ensures var w1 := SetSessionId(w, sessionId, csrfToken, wwwClaim, true, now).1;
            var r := TryLoadSession(World(Fresh, w1.file), verifiedLater);
            && (r.0 <==> Strip(sessionId) != "" && verifiedLater)
            && r.1.client.loggedIn == r.0
            && r.1.client.sessionId == w1.client.sessionId
            && r.1.client.csrfToken == w1.client.csrfToken
            && r.1.client.wwwClaim == w1.client.wwwClaim
            && r.1.client.username == w1.client.username
  {
    var w1 := SetSessionId(w, sessionId, csrfToken, wwwClaim, true, now).1;
    assert w1.file == Stored(SaveDoc(w1.client, now));
    SaveDocFields(w1.client, now);
  }

  /** After a logout, loading finds no file: nothing is restored and the
      client stays logged out. */
  lemma LogoutThenLoad(w: World, verified: bool)
    ensures var w1 := Logout(w);
            var (ok, w2) := TryLoadSession(w1, verified);
            !ok && w2 == w1 && LoginStatus(w2.client) == "未登录"
  {
  }

  /** The username is never set by a login: a fresh client that logs in with
      `set_session_id` reports no name, because only a session file supplies
      one. */
  lemma FreshLoginHasNoName(file: SessionFile, sessionId: string, csrfToken: Option<string>,
                            wwwClaim: Option<string>, now: string)
    ensures var (_, w1) := SetSessionId(World(Fresh, file), sessionId, csrfToken, wwwClaim, true, now);
            LoginStatus(w1.client) == "已登录"
  {
  }
}
