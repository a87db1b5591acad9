/** The login page: on submit it clears its messages, posts the
    credentials to the token endpoint, and on success stores the returned
    token pair in `localStorage`. */
module Login {
  import opened Base
  import Storage
  import AppLayout
  import Api

  const DefaultBase: string := "https://web-production-dd05.up.railway.app/api"
  const TokenPath: string := "/token/"
  const SuccessPrefix: string := "Giriş başarılı! Token: "
  const FailureMessage: string := "Giriş başarısız! Kullanıcı adı veya şifre yanlış."

  /** The token endpoint: `NEXT_PUBLIC_API_URL` (a missing or empty one
      falls back to the default, which already ends in `/api`) followed
      by `/token/`. */
  function LoginUrl(env: Option<string>): string {
    OrElse(env, DefaultBase) + TokenPath
  }

  /** The page's state: the browser store and the two messages it shows. */
  datatype Page = Page(store: Storage.Store, error: string, success: string)

  /** The POST the page sends: JSON body `{ username, password }`. */
  datatype LoginRequest = LoginRequest(url: string, username: string, password: string)

  /** The token endpoint's answer: a token pair, or any error. */
  datatype LoginReply = Issued(access: string, refresh: string) | Refused

  /** The page with both messages cleared (before the request leaves),
      the request, and the page once the answer is in. */
  datatype Submitted = Submitted(cleared: Page, request: LoginRequest, page: Page)

  /** `handleSubmit`. Both messages are cleared before the request. On
      success the access and refresh tokens are stored under their keys,
      nothing else in the store changes, no error is shown, and the
      success message is the fixed prefix followed by the access token. On
      failure the store is untouched, the fixed error is shown and the
      success message stays cleared. */
  function HandleSubmit(p: Page, username: string, password: string, env: Option<string>, reply: LoginReply): (r: Submitted)
    ensures r.cleared == p.(error := "", success := "")
    ensures r.request == LoginRequest(LoginUrl(env), username, password)
    ensures reply.Issued? ==>
      && Storage.GetItem(r.page.store, Storage.AccessKey) == Some(reply.access)
      && Storage.GetItem(r.page.store, Storage.RefreshKey) == Some(reply.refresh)
      && (forall k :: k != Storage.AccessKey && k != Storage.RefreshKey ==>
            Storage.GetItem(r.page.store, k) == Storage.GetItem(p.store, k))
      && r.page.error == ""
      && SuccessPrefix <= r.page.success
      && r.page.success[|SuccessPrefix|..] == reply.access
    ensures reply.Refused? ==> r.page == Page(p.store, FailureMessage, "")
  {
    var cleared := p.(error := "", success := "");
    var request := LoginRequest(LoginUrl(env), username, password);
    match reply
    case Issued(access, refresh) =>
      var store := Storage.SetItem(Storage.SetItem(cleared.store, Storage.AccessKey, access), Storage.RefreshKey, refresh);
      assert (SuccessPrefix + access)[|SuccessPrefix|..] == access;
      Submitted(cleared, request, cleared.(success := SuccessPrefix + access, store := store))
    case Refused =>
      Submitted(cleared, request, cleared.(error := FailureMessage))
  }

  /** A successful login with a non-empty access token opens the session:
      the layout's check lets every page through, and every API request
      leaves with `Bearer <access>`. An empty access token opens nothing. */
  lemma LoginOpensSession(p: Page, username: string, password: string, env: Option<string>,
                          access: string, refresh: string, pathname: string, req: Api.Request)
    ensures var st := HandleSubmit(p, username, password, env, Issued(access, refresh)).page.store;
      && (AppLayout.CheckAuth(st, pathname).push.None? <==> access != "" || pathname == AppLayout.LoginPath)
      && (access != "" ==> Api.BearerToken(Api.Authenticate(st, req).headers) == Some(access))
  {
  }

  /** The session scenario end to end: log in as "a"/"b" and receive
      T1/R1; a GET leaves with Bearer T1 and meets 401; the refresh POST
      carries R1 and returns T2; the store then holds T2 and R1, the GET is
      sent again with Bearer T2, and its 200 reaches the caller. */
  lemma SessionScenario(env: Option<string>)
    ensures
      var st := HandleSubmit(Page(map[], "", ""), "a", "b", env, Issued("T1", "R1")).page.store;
      var s0 := Api.Call(st, Api.GET, "/api/araclar/", None);
      var s1 := Api.Step(env, s0, Api.Replied(Api.Response(401, "")));
      var s2 := Api.Step(env, s1, Api.RefreshDone(Api.Refreshed("T2")));
      var s3 := Api.Step(env, s2, Api.Replied(Api.Response(200, "[]")));
      && Api.BearerToken(s0.phase.req.headers) == Some("T1")
      && s1.effects == [Api.Send(s0.phase.req), Api.PostRefresh(Api.ApiUrl(env) + Api.RefreshPath, Some("R1"))]
      && Storage.GetItem(s2.store, Storage.AccessKey) == Some("T2")
      && Storage.GetItem(s2.store, Storage.RefreshKey) == Some("R1")
      && Api.BearerToken(s2.phase.req.headers) == Some("T2")
      && s3.phase == Api.Resolved(Api.Response(200, "[]"))
      && Api.CountSends(s3.effects) == 2
  {
    var st := HandleSubmit(Page(map[], "", ""), "a", "b", env, Issued("T1", "R1")).page.store;
    assert Storage.GetItem(st, Storage.AccessKey) == Some("T1");
    assert Storage.GetItem(st, Storage.RefreshKey) == Some("R1");
    var s0 := Api.Call(st, Api.GET, "/api/araclar/", None);
    assert s0.store == st && s0.phase.AwaitingReply? && !s0.phase.req.retried;
    assert s0.effects == [Api.Send(s0.phase.req)];
    var refresh := Api.PostRefresh(Api.ApiUrl(env) + Api.RefreshPath, Some("R1"));
    var s1 := Api.Step(env, s0, Api.Replied(Api.Response(401, "")));
    assert s1.store == st && s1.phase.AwaitingRefresh?;
    assert s1.effects == [Api.Send(s0.phase.req), refresh];
    var s2 := Api.Step(env, s1, Api.RefreshDone(Api.Refreshed("T2")));
    assert s2.phase.AwaitingReply? && s2.effects == s1.effects + [Api.Send(s2.phase.req)];
    var s3 := Api.Step(env, s2, Api.Replied(Api.Response(200, "[]")));
    assert s3.effects == s2.effects;
    Api.CountsAppend([Api.Send(s0.phase.req)], refresh);
    Api.CountsAppend(s1.effects, Api.Send(s2.phase.req));
    Api.CountsAppend([], Api.Send(s0.phase.req));
  }
}
