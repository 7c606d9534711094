/** The profile provider: `profile` (undefined until answered) and `isLoading`,
    set by the promise chain of its mount effect. It never gates its
    children; on failure it pushes '/login'. */
module ProfileContext {
  import opened Js
  import opened Http
  import opened Session

  /** The provider's render passes its children through in every state: it does not gate on
      `isLoading` or `profile`, so no render function is modelled for it. */
  class ProfileProvider {
    const env: Option<string>
    /** None is `undefined`; a body of JSON `null` gives Some(JNull). */
    var profile: Option<Json>
    var isLoading: bool
    var navigations: seq<Nav>
    var requests: seq<Request>

    constructor (env: Option<string>)
      ensures this.env == env
      ensures profile == None && isLoading
      ensures navigations == [] && requests == []
    {
      this.env := env;
      profile := None;
      isLoading := true;
      navigations := [];
      requests := [];
    }

    /** The mount effect: fetch the profile, then either store it or push '/login'. */
    method Mount(outcome: FetchOutcome)
      modifies this
      ensures requests == old(requests) + [ProfileRequest(env)]
      ensures !isLoading
      ensures Resolve(outcome).Some? ==>
                profile == Resolve(outcome) && navigations == old(navigations)
      ensures Resolve(outcome).None? ==>
                profile == old(profile) && navigations == old(navigations) + [Push("/login")]
    {
      requests := requests + [ProfileRequest(env)];
      match Resolve(outcome)
      case Some(data) =>
        profile := Some(data);
        isLoading := false;
      case None =>
        isLoading := false;
        navigations := navigations + [Push("/login")];
    }

    /** `setIsLoading`, handed to consumers through the context value. */
    method SetIsLoading(value: bool)
      modifies this
      ensures isLoading == value
      ensures profile == old(profile) && navigations == old(navigations) && requests == old(requests)
    {
      isLoading := value;
    }
  }
}
