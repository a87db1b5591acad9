/** The server-side route guard: a Next.js middleware that reads the
    `access_token` cookie and redirects between the login page and the
    home page. It runs only for the paths its matcher lists. */
module Middleware {
  import opened Base

  const LoginPath: string := "/login"
  const HomePath: string := "/"

  datatype Decision = Next | Redirect(target: string)

  /** `config.matcher`: the middleware runs for `/` and `/login` only. */
  predicate InScope(pathname: string) {
    pathname == HomePath || pathname == LoginPath
  }

  /** The decision of the middleware function itself, given the path and
      the `access_token` cookie (an empty cookie counts as no token):
      without a token anywhere but the login page, go to the login page;
      with a token on the login page, go home; otherwise continue. */
  function Decide(pathname: string, cookie: Option<string>): (d: Decision)
    ensures d == Redirect(LoginPath) <==> !Truthy(cookie) && pathname != LoginPath
    ensures d == Redirect(HomePath) <==> Truthy(cookie) && pathname == LoginPath
    ensures d == Next <==> (Truthy(cookie) <==> pathname != LoginPath)
  {
    var hasToken := Truthy(cookie);
    var isLoginPage := pathname == LoginPath;
    if !hasToken && !isLoginPage then Redirect(LoginPath)
    else if hasToken && isLoginPage then Redirect(HomePath)
    else Next
  }

  /** What a navigation to `pathname` meets: the middleware's decision
      inside the matcher, and pass-through outside it. */
  function Guard(pathname: string, cookie: Option<string>): Decision {
    if InScope(pathname) then Decide(pathname, cookie) else Next
  }

  /** No redirect loop: a redirect always targets a path inside the matcher,
      and following it with the same cookie passes through. */
  lemma NoRedirectLoop(pathname: string, cookie: Option<string>)
    ensures Guard(pathname, cookie).Redirect? ==>
      && InScope(Guard(pathname, cookie).target)
      && Guard(Guard(pathname, cookie).target, cookie) == Next
  {
  }

  /** Paths outside the matcher are never redirected, whatever the cookie. */
  lemma OutOfScopePassesThrough(pathname: string, cookie: Option<string>)
    requires !InScope(pathname)
    ensures Guard(pathname, cookie) == Next
  {
  }
}
