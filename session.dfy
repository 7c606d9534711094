/** The session resolver shared by the auth provider, the profile provider
    and the dashboard page: a credentialed GET of `/admin/profile` whose
    outcome is either the decoded identity or "not authenticated". A non-ok
    status, a rejected fetch and an undecodable body all collapse into the
    same negative answer. */
module Session {
  import opened Js
  import opened Http

  /** The request every profile lookup sends. */
  function ProfileRequest(env: Option<string>): (req: Request)
    ensures req.verb == GET && req.body == NoBody && req.withCredentials
    ensures req.url == EnvText(env) + "/admin/profile"
  {
    Request(GET, EnvText(env) + "/admin/profile", NoBody, true)
  }

  /** `if (!res.ok) throw ...; return res.json()`: the identity when there is one. */
  function Resolve(outcome: FetchOutcome): (identity: Option<Json>)
    ensures identity.Some? <==>
              outcome.Resolved? && Ok(outcome.response) && outcome.response.body.Parsed?
    ensures identity.Some? ==> identity.value == outcome.response.body.json
  {
    match outcome
    case Rejected(_) => None
    case Resolved(res) =>
      if !Ok(res) then None
      else match JsonOf(res)
        case Success(j) => Some(j)
        case Failure(_) => None
  }

  /** A status outside 200-299 never resolves, whatever the body says. */
  lemma NonOkNeverResolves(res: Response)
    requires !Ok(res)
    ensures Resolve(Resolved(res)) == None
  {
  }
}
