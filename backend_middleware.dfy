// The API route guards (src/backend/middleware/midleware.js): a sequential
// runner that stops at the first response, the session check that attaches
// the session to the request, and the permission check. The server session
// and `checkPermission` are parameters.

module BackendMiddleware {
  import opened Js

  /** The parts of a next-auth session the guards read. */
  datatype Session = Session(isAdmin: bool, userId: int)

  /** The outcome of one guard: a response, nothing (go on), or a thrown error. `Respond` stands for `Response`/`NextResponse`. */
  datatype Outcome = Respond(status: int, message: string) | Continue | Throw(message: string)

  /** A guard of the route: `requireAuth` with the session the server returns, or `requirePermission(resource, action)` with the answer of `checkPermission` for a user id. */
  datatype Guard =
    | RequireAuth(serverSession: Option<Session>)
    | RequirePermission(resource: string, action: string, canAccess: int -> bool)

  const NotAuthorized := "Não autorizado"
  const Forbidden := "Acesso negado: permissão insuficiente"
  const AuthFirst := "requireAuth deve ser usado antes de requirePermission"

  /** The request object; `requireAuth` writes its `session`. */
  class Request {
    var session: Option<Session>

    constructor(session0: Option<Session>)
      ensures session == session0
    {
      session := session0;
    }
  }

  /** One guard on a request whose session is `s`: its outcome and the session afterwards. */
  function Step(g: Guard, s: Option<Session>): (r: (Outcome, Option<Session>))
    ensures g.RequireAuth? ==> (r.0.Continue? <==> g.serverSession.Some?)
    ensures g.RequireAuth? && g.serverSession.None? ==> r == (Respond(401, NotAuthorized), s)
    ensures g.RequireAuth? && g.serverSession.Some? ==> r.1 == g.serverSession
    ensures g.RequirePermission? ==> r.1 == s
    ensures g.RequirePermission? && s.None? ==> r.0 == Throw(AuthFirst)
    ensures g.RequirePermission? && s.Some? ==>
      (r.0.Continue? <==> s.value.isAdmin || g.canAccess(s.value.userId))
      && (!r.0.Continue? ==> r.0 == Respond(403, Forbidden))
  {
    match g
    case RequireAuth(server) =>
      if server.None? then (Respond(401, NotAuthorized), s) else (Continue, server)
    case RequirePermission(_, _, canAccess) =>
      if s.None? then (Throw(AuthFirst), s)
      else if !s.value.isAdmin && !canAccess(s.value.userId) then (Respond(403, Forbidden), s)
      else (Continue, s)
  }

  /** The guards run in order until one does not continue. */
  function Compose(gs: seq<Guard>, s: Option<Session>): (Outcome, Option<Session>)
    decreases |gs|
  {
    if |gs| == 0 then (Continue, s)
    else
      var (o, s') := Step(gs[0], s);
      if o.Continue? then Compose(gs[1..], s') else (o, s')
  }

  /** Running one more guard after a prefix. */
  lemma {:induction false} ComposeSnoc(gs: seq<Guard>, g: Guard, s: Option<Session>)
    ensures Compose(gs + [g], s) ==
      if Compose(gs, s).0.Continue? then Step(g, Compose(gs, s).1) else Compose(gs, s)
    decreases |gs|
  {
    if |gs| == 0 {
      assert gs + [g] == [g];
    } else {
      assert (gs + [g])[1..] == gs[1..] + [g];
      var (o, s') := Step(gs[0], s);
      if o.Continue? {
        ComposeSnoc(gs[1..], g, s');
      }
    }
  }

  /** Once a guard has answered, the guards after it do not run: their outcome and effect on the session are lost. */
  lemma {:induction false} StopsAtFirstAnswer(gs: seq<Guard>, rest: seq<Guard>, s: Option<Session>)
    requires !Compose(gs, s).0.Continue?
    ensures Compose(gs + rest, s) == Compose(gs, s)
    decreases |gs|
  {
    assert |gs| > 0;
    assert (gs + rest)[1..] == gs[1..] + rest;
    var (o, s') := Step(gs[0], s);
    if o.Continue? {
      StopsAtFirstAnswer(gs[1..], rest, s');
    }
  }

  /** The runner returns null exactly when every guard continued. */
  lemma {:induction false} NullIffAllContinue(gs: seq<Guard>, s: Option<Session>)
    ensures Compose(gs, s).0.Continue? <==> AllContinue(gs, s)
    decreases |gs|
  {
    if |gs| > 0 {
      NullIffAllContinue(gs[1..], Step(gs[0], s).1);
    }
  }

  /** Every guard continues, each on the session the one before it left. */
  predicate AllContinue(gs: seq<Guard>, s: Option<Session>)
    decreases |gs|
  {
    |gs| == 0 || (Step(gs[0], s).0.Continue? && AllContinue(gs[1..], Step(gs[0], s).1))
  }

  /** `requireAuth` followed by `requirePermission` never throws. */
  lemma AuthThenPermissionNeverThrows(server: Option<Session>, resource: string, action: string, canAccess: int -> bool, s: Option<Session>)
    ensures !Compose([RequireAuth(server), RequirePermission(resource, action, canAccess)], s).0.Throw?
  {
    var gs := [RequireAuth(server), RequirePermission(resource, action, canAccess)];
    assert gs[1..] == [RequirePermission(resource, action, canAccess)];
    assert gs[1..][1..] == [];
    var (o, s') := Step(gs[0], s);
    if o.Continue? {
      assert s'.Some?;
      assert Compose(gs, s) == Compose(gs[1..], s');
      assert Compose(gs[1..], s') == Step(gs[1], s');
    }
  }

  /** `requireAuth(request)` */
  method RunRequireAuth(request: Request, serverSession: Option<Session>) returns (o: Outcome)
    modifies request
    ensures (o, request.session) == Step(RequireAuth(serverSession), old(request.session))
  {
    if serverSession.None? {
      return Respond(401, NotAuthorized);
    }
    request.session := serverSession;
    return Continue;
  }

  /** `requirePermission(resource, action)(request)` */
  method RunRequirePermission(request: Request, resource: string, action: string, canAccess: int -> bool) returns (o: Outcome)
    ensures (o, request.session) == Step(RequirePermission(resource, action, canAccess), request.session)
  {
    if request.session.None? {
      return Throw(AuthFirst);
    }
    if !request.session.value.isAdmin {
      var allowed := canAccess(request.session.value.userId);
      if !allowed {
        return Respond(403, Forbidden);
      }
    }
    return Continue;
  }

  /** `composeMiddlewares(...guards)(request)`: the first outcome that is not null (a thrown error propagates). */
  method ComposeMiddlewares(guards: seq<Guard>, request: Request) returns (o: Outcome)
    modifies request
    ensures (o, request.session) == Compose(guards, old(request.session))
  {
    var i := 0;
    while i < |guards|
      invariant 0 <= i <= |guards|
      invariant Compose(guards[..i], old(request.session)) == (Continue, request.session)
    {
      ComposeSnoc(guards[..i], guards[i], old(request.session));
      assert guards[..i + 1] == guards[..i] + [guards[i]];
      var r;
      match guards[i] {
        case RequireAuth(server) =>
          r := RunRequireAuth(request, server);
        case RequirePermission(resource, action, canAccess) =>
          r := RunRequirePermission(request, resource, action, canAccess);
      }
      if !r.Continue? {
        StopsAtFirstAnswer(guards[..i + 1], guards[i + 1..], old(request.session));
        assert guards[..i + 1] + guards[i + 1..] == guards;
        return r;
      }
      i := i + 1;
    }
    assert guards[..i] == guards;
    return Continue;
  }
}
