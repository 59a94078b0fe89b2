/**
 * Express routing as backend/routes/currency.js and backend/routes/auth.js
 * use it: a route runs its middleware in the order it was registered.
 * `protect` ends a request that carries no valid credential with a 401; a
 * validation chain records its verdicts and rewrites the fields it
 * sanitises, then passes the request on (no handler shown reads the
 * verdicts); the handler answers.
 */
module Routing {

  datatype Verb = Get | Post

  datatype Stage = Protect | Validate(chain: string) | Handle(handler: string)

  datatype Route = Route(verb: Verb, path: string, stages: seq<Stage>)

  datatype Outcome = Unauthorized | Reached(handler: string) | Unanswered

  /** Where a request ends up after the stages, given whether `protect` accepts its credential. */
  function Run(stages: seq<Stage>, authenticated: bool): (o: Outcome)
    ensures o.Reached? ==> Handle(o.handler) in stages
    ensures o == Unauthorized ==> !authenticated && Protect in stages
  {
    if stages == [] then Unanswered
    else
      match stages[0]
      case Protect => if authenticated then Run(stages[1..], authenticated) else Unauthorized
      case Validate(_) => Run(stages[1..], authenticated)
      case Handle(h) => Reached(h)
  }

  /** Validation chains, then exactly one handler, last. */
  predicate ChainsThenHandler(stages: seq<Stage>) {
    && |stages| >= 1
    && stages[|stages| - 1].Handle?
    && forall i :: 0 <= i < |stages| - 1 ==> stages[i].Validate?
  }

  /** A protected route: `protect` first, then validation chains, then the handler. */
  predicate Protected(r: Route) {
    |r.stages| >= 2 && r.stages[0] == Protect && ChainsThenHandler(r.stages[1..])
  }

  /** An open route: validation chains, then the handler, and no `protect`. */
  predicate Open(r: Route) {
    ChainsThenHandler(r.stages)
  }

  /** Chains never stop a request: it always reaches the handler at the end. */
  lemma {:induction false} ChainsReachHandler(stages: seq<Stage>, authenticated: bool)
    requires ChainsThenHandler(stages)
    ensures Run(stages, authenticated) == Reached(stages[|stages| - 1].handler)
  {
    if |stages| > 1 {
      assert stages[0].Validate?;
      ChainsReachHandler(stages[1..], authenticated);
    }
  }

  /** A protected route turns away every unauthenticated request and hands every authenticated one to its handler. */
  lemma ProtectedRouteGate(r: Route)
    requires Protected(r)
    ensures Run(r.stages, false) == Unauthorized
    ensures Run(r.stages, true) == Reached(r.stages[|r.stages| - 1].handler)
  {
    ChainsReachHandler(r.stages[1..], true);
  }

  /** An open route hands every request to its handler, authenticated or not. */
  lemma OpenRouteReached(r: Route, authenticated: bool)
    requires Open(r)
    ensures Run(r.stages, authenticated) == Reached(r.stages[|r.stages| - 1].handler)
  {
    ChainsReachHandler(r.stages, authenticated);
  }
}
