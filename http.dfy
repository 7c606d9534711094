/** What the console exchanges with the backend and the router, as values:
    responses and fetch outcomes (inputs), requests, multipart forms and
    navigation intents (recorded outputs). */
module Http {
  import opened Js

  /** A response body as `res.json()` sees it: decodable JSON, or text that makes it reject. */
  datatype Body = Parsed(json: Json) | Malformed(reason: string)

  datatype Response = Response(status: int, body: Body)

  /** `res.ok`: a status in the range 200-299. */
  predicate Ok(res: Response) {
    200 <= res.status <= 299
  }

  /** What `await fetch(...)` does: resolve with a response, whatever its status, or reject. */
  datatype FetchOutcome = Resolved(response: Response) | Rejected(error: Error)

  /** `await res.json()`: the decoded body, or the `SyntaxError` it rejects with. */
  function JsonOf(res: Response): (r: Result<Json, Error>)
    ensures r.Success? <==> res.body.Parsed?
    ensures r.Success? ==> r.value == res.body.json
    ensures r.Failure? ==> r.error == Error(res.body.reason)
  {
    match res.body
    case Parsed(j) => Success(j)
    case Malformed(reason) => Failure(Error(reason))
  }

  /** `await res.json().catch(() => ({}))`: an undecodable body reads as the empty object. */
  function JsonOrEmpty(res: Response): (j: Json)
    ensures res.body.Parsed? ==> j == res.body.json
    ensures res.body.Malformed? ==> j == JObj(map[])
  {
    match res.body
    case Parsed(j) => j
    case Malformed(_) => JObj(map[])
  }

  /** A `File` picked by the user; its contents are opaque here. */
  datatype File = File(name: string, token: nat)

  datatype FormValue = Text(text: string) | Blob(file: File)

  /** One `formData.append(key, value)`. */
  datatype Entry = Entry(key: string, value: FormValue)

  datatype Method = GET | POST | DELETE

  datatype RequestBody = NoBody | FormBody(entries: seq<Entry>) | JsonBody(json: Json)

  /** A `fetch` call; `withCredentials` is `credentials: "include"` (the session cookie is sent). */
  datatype Request = Request(verb: Method, url: string, body: RequestBody, withCredentials: bool)

  /** A router call recorded instead of performed. */
  datatype Nav = Push(path: string) | Replace(path: string)

  /** The keys of a multipart form, in append order. */
  function Keys(form: seq<Entry>): (ks: seq<string>)
    ensures |ks| == |form|
    ensures forall i :: 0 <= i < |form| ==> ks[i] == form[i].key
  {
    if form == [] then [] else [form[0].key] + Keys(form[1..])
  }

  /** The keys of two forms appended are the keys of the first, then those of the second. */
  lemma KeysAppend(a: seq<Entry>, b: seq<Entry>)
    ensures Keys(a + b) == Keys(a) + Keys(b)
  {
    assert forall i :: 0 <= i < |a + b| ==> Keys(a + b)[i] == (Keys(a) + Keys(b))[i];
  }

  /** `${process.env.NEXT_PUBLIC_API_URL}` inside a template literal: an unset variable renders as "undefined". */
  function EnvText(env: Option<string>): (s: string)
    ensures env.Some? ==> s == env.value
    ensures env.None? ==> s == "undefined"
  {
    if env.Some? then env.value else "undefined"
  }
}
