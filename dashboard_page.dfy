/** The dashboard page: `profile` (null) and `isLoading` set by the fetch chain
    of its mount effect; while loading it renders only the placeholder. */
module DashboardPage {
  import opened Js
  import opened Http
  import opened Session

  datatype PageView = LoadingPlaceholder | Dashboard

  /** What the page renders for its loading flag. */
  function View(isLoading: bool): (v: PageView)
    ensures v == LoadingPlaceholder <==> isLoading
  {
    if isLoading then LoadingPlaceholder else Dashboard
  }

  class Page {
    const env: Option<string>
    /** JavaScript `null` is JNull. */
    var profile: Json
    var isLoading: bool
    var navigations: seq<Nav>
    var requests: seq<Request>

    constructor (env: Option<string>)
      ensures this.env == env
      ensures profile == JNull && isLoading
      ensures navigations == [] && requests == []
    {
      this.env := env;
      profile := JNull;
      isLoading := true;
      navigations := [];
      requests := [];
    }

    /** The mount effect: store the profile on success; on a non-ok status, a rejection or an
        undecodable body, clear the loading flag and push '/login'. */
    method Mount(outcome: FetchOutcome)
      modifies this
      ensures requests == old(requests) + [ProfileRequest(env)]
      ensures !isLoading && View(isLoading) == Dashboard
      ensures Resolve(outcome).Some? ==>
                profile == Resolve(outcome).value && navigations == old(navigations)
      ensures Resolve(outcome).None? ==>
                profile == old(profile) && navigations == old(navigations) + [Push("/login")]
    {
      requests := requests + [ProfileRequest(env)];
      match Resolve(outcome)
      case Some(data) =>
        profile := data;
        isLoading := false;
      case None =>
        isLoading := false;
        navigations := navigations + [Push("/login")];
    }
  }
}
