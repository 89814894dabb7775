/** The client-side guard of `src/hooks/use-auth.ts`: the `router.push`
    calls its effect makes, returned as a list, and the flags it derives
    from the session status. */
module UseAuth {
  import opened Common
  import Middleware

  datatype Status = Loading | Authenticated | Unauthenticated

  /** The targets the `useEffect` body pushes, in order. */
  function Pushes(hasSession: bool, status: Status, currentPath: string): (r: seq<string>)
    ensures status == Loading ==> r == []
    ensures r == [] || r == ["/"] || r == ["/profile"]
    ensures r == ["/"] <==> status != Loading && !hasSession && StartsWith(currentPath, "/profile")
    ensures r == ["/profile"] <==> status != Loading && hasSession && currentPath == "/"
  {
    assert ["/"] != ["/profile"] by { assert |"/"| != |"/profile"|; }
    if status == Loading then []
    else
      (if !hasSession && StartsWith(currentPath, "/profile") then ["/"] else [])
      + (if hasSession && currentPath == "/" then ["/profile"] else [])
  }

  /** The target of a push causes no further push under the same session. */
  lemma NoPushLoop(hasSession: bool, status: Status, currentPath: string)
    ensures forall t :: t in Pushes(hasSession, status, currentPath) ==> Pushes(hasSession, status, t) == []
  {
  }

  /** Outside `/register` the hook pushes exactly where the middleware
      redirects, once the status is known. */
  lemma AgreesWithMiddleware(hasSession: bool, status: Status, currentPath: string)
    requires status != Loading && currentPath != "/register"
    ensures Pushes(hasSession, status, currentPath) ==
      (match Middleware.Guard(hasSession, currentPath)
       case Redirect(t) => [t]
       case Next => [])
  {
  }

  /** On `/register` with a session the middleware redirects, the hook does not. */
  lemma DiffersOnRegister()
    ensures Middleware.Guard(true, "/register") == Middleware.Redirect("/profile")
    ensures Pushes(true, Authenticated, "/register") == []
  {
  }

  predicate IsAuthenticated(status: Status) { status == Authenticated }

  predicate IsLoading(status: Status) { status == Loading }

  lemma FlagsExclusive(status: Status)
    ensures !(IsAuthenticated(status) && IsLoading(status))
  {
  }
}
