/** The product API wrappers: endpoint URLs, the multipart payloads of update
    and create, the choice of error message from status and body, the reading
    of each answer, and the primary-image URL. */
module ProductsApi {
  import opened Js
  import opened Http

  const DefaultApiUrl := "http://localhost:5000"
  const AuthRequired := "Authentication required. Please log in."

  /** `process.env.NEXT_PUBLIC_API_URL || "http://localhost:5000"`. */
  function ApiUrl(env: Option<string>): (u: string)
    ensures env.Some? && env.value != "" ==> u == env.value
    ensures env.None? || env.value == "" ==> u == DefaultApiUrl
    ensures u != ""
  {
    if env.Some? && env.value != "" then env.value else DefaultApiUrl
  }

  function ProductsEndpoint(apiUrl: string): string {
    apiUrl + "/products"
  }

  /** `${PRODUCTS_ENDPOINT}/<action>/${id}`: the endpoint, the action between slashes, then the id,
      which can be read back. */
  function ActionUrl(apiUrl: string, action: string, id: string): (u: string)
    ensures StartsWith(u, ProductsEndpoint(apiUrl) + "/" + action + "/")
    ensures u[|ProductsEndpoint(apiUrl) + "/" + action + "/"|..] == id
  {
    var prefix := ProductsEndpoint(apiUrl) + "/" + action + "/";
    assert (prefix + id)[..|prefix|] == prefix;
    prefix + id
  }

  function DeleteUrl(apiUrl: string, id: string): string {
    ActionUrl(apiUrl, "delete", id)
  }

  function UpdateUrl(apiUrl: string, id: string): string {
    ActionUrl(apiUrl, "update", id)
  }

  /** Distinct products get distinct delete and update URLs, and a delete URL is never an update URL. */
  lemma UrlsSeparateIds(apiUrl: string, id1: string, id2: string)
    ensures DeleteUrl(apiUrl, id1) == DeleteUrl(apiUrl, id2) ==> id1 == id2
    ensures UpdateUrl(apiUrl, id1) == UpdateUrl(apiUrl, id2) ==> id1 == id2
    ensures DeleteUrl(apiUrl, id1) != UpdateUrl(apiUrl, id2)
  {
    var d := DeleteUrl(apiUrl, id1);
    var u := UpdateUrl(apiUrl, id2);
    var n := |ProductsEndpoint(apiUrl)|;
    assert d[n + 1] == 'd' by { assert d[..n + 8] == ProductsEndpoint(apiUrl) + "/delete/"; }
    assert u[n + 1] == 'u' by { assert u[..n + 8] == ProductsEndpoint(apiUrl) + "/update/"; }
  }

  // ----- error messages -----

  /** The error `fetchProducts` throws for a non-ok status. */
  function FetchProductsError(status: int): (e: Error)
    ensures status == 401 ==> e.message == AuthRequired
    ensures status != 401 ==> e.message == "Failed to fetch products: " + IntToString(status)
  {
    if status == 401 then Error(AuthRequired)
    else Error("Failed to fetch products: " + IntToString(status))
  }

  /** The error delete, update and create throw for a non-ok answer: 401 is fixed text, anything
      else takes `err?.error` from the body (an undecodable body reads as `{}`) or the fallback. */
  function MutationError(res: Response, fallback: string): (e: Error)
    ensures res.status == 401 ==> e.message == AuthRequired
    ensures res.status != 401 ==> e == ErrorFrom(GetOpt(JsonOrEmpty(res), "error"), fallback)
    ensures res.status != 401 && res.body.Malformed? ==> e.message == fallback
  {
    if res.status == 401 then Error(AuthRequired)
    else ErrorFrom(GetOpt(JsonOrEmpty(res), "error"), fallback)
  }

  const DeleteFailed := "Failed to delete product"
  const UpdateFailed := "Failed to update product"
  const CreateFailed := "Failed to create product"

  /** What `fetchProducts()` resolves to (the decoded body) or rejects with. */
  function FetchProductsResult(outcome: FetchOutcome): (r: Result<Json, Error>)
    ensures outcome.Rejected? ==> r == Failure(outcome.error)
    ensures outcome.Resolved? && !Ok(outcome.response) ==>
              r == Failure(FetchProductsError(outcome.response.status))
    ensures outcome.Resolved? && Ok(outcome.response) ==> r == JsonOf(outcome.response)
  {
    match outcome
    case Rejected(e) => Failure(e)
    case Resolved(res) => if !Ok(res) then Failure(FetchProductsError(res.status)) else JsonOf(res)
  }

  /** What `deleteProduct(id)` rejects with, or None when it resolves. */
  function DeleteProductResult(outcome: FetchOutcome): (r: Option<Error>)
    ensures outcome.Rejected? ==> r == Some(outcome.error)
    ensures outcome.Resolved? ==>
              r == if Ok(outcome.response) then None else Some(MutationError(outcome.response, DeleteFailed))
  {
    match outcome
    case Rejected(e) => Some(e)
    case Resolved(res) => if Ok(res) then None else Some(MutationError(res, DeleteFailed))
  }

  /** What update and create resolve to: `result.product` of the decoded body (None = undefined),
      or the error; a `null` body makes `result.product` throw. */
  function ProductResult(outcome: FetchOutcome, fallback: string): (r: Result<Option<Json>, Error>)
    ensures outcome.Rejected? ==> r == Failure(outcome.error)
    ensures outcome.Resolved? && !Ok(outcome.response) ==>
              r == Failure(MutationError(outcome.response, fallback))
    ensures outcome.Resolved? && Ok(outcome.response) && outcome.response.body.Parsed?
            && !outcome.response.body.json.JNull? ==>
              r == Success(GetOpt(outcome.response.body.json, "product"))
    ensures outcome.Resolved? && Ok(outcome.response) && outcome.response.body.Malformed? ==>
              r == Failure(Error(outcome.response.body.reason))
    ensures outcome.Resolved? && Ok(outcome.response) && outcome.response.body == Parsed(JNull) ==>
              r == Failure(NullAccess("product"))
  {
    match outcome
    case Rejected(e) => Failure(e)
    case Resolved(res) =>
      if !Ok(res) then Failure(MutationError(res, fallback))
      else match JsonOf(res)
        case Failure(e) => Failure(e)
        case Success(result) =>
          match Get(result, "product")
          case Threw(e) => Failure(e)
          case Got(p) => Success(p)
  }

  /** Every product operation reports a 401 as the one authentication message. */
  lemma UnauthorizedIsAuthRequired(body: Body)
    ensures FetchProductsResult(Resolved(Response(401, body))) == Failure(Error(AuthRequired))
    ensures DeleteProductResult(Resolved(Response(401, body))) == Some(Error(AuthRequired))
    ensures ProductResult(Resolved(Response(401, body)), UpdateFailed) == Failure(Error(AuthRequired))
    ensures ProductResult(Resolved(Response(401, body)), CreateFailed) == Failure(Error(AuthRequired))
  {
  }

  // ----- multipart payloads -----

  /** An entry of the payload object: undefined, null, or a value shown as `String(value)` gives it. */
  datatype PayloadValue = Undefined | Null | Scalar(text: string)

  datatype Field = Field(key: string, value: PayloadValue)

  /** `String(value)` for a payload value. */
  function Shown(v: PayloadValue): string {
    match v
    case Undefined => "undefined"
    case Null => "null"
    case Scalar(text) => text
  }

  function AsEntry(f: Field): Entry {
    Entry(f.key, Text(Shown(f.value)))
  }

  /** The entries `updateProduct` appends for its payload: the present ones, in entry order. */
  function PresentEntries(fields: seq<Field>): seq<Entry>
  {
    if fields == [] then []
    else
      var last := fields[|fields| - 1];
      PresentEntries(fields[..|fields| - 1]) + (if last.value.Scalar? then [AsEntry(last)] else [])
  }

  /** Filtering distributes over concatenation: the payload keeps the entries' order. */
  lemma {:induction false} PresentEntriesAppend(a: seq<Field>, b: seq<Field>)
    ensures PresentEntries(a + b) == PresentEntries(a) + PresentEntries(b)
    decreases |b|
  {
    if b != [] {
      var b' := b[..|b| - 1];
      assert (a + b)[..|a + b| - 1] == a + b';
      PresentEntriesAppend(a, b');
    } else {
      assert a + b == a;
    }
  }

  /** The update form holds exactly the entries that are neither undefined nor null, stringified. */
  lemma {:induction false} PresentEntriesExact(fields: seq<Field>)
    ensures |PresentEntries(fields)| <= |fields|
    ensures forall e :: e in PresentEntries(fields) <==>
              exists f :: f in fields && f.value.Scalar? && e == AsEntry(f)
  {
    if fields != [] {
      var init := fields[..|fields| - 1];
      PresentEntriesExact(init);
      assert fields == init + [fields[|fields| - 1]];
    }
  }

  /** For createProduct: every entry, whatever its value, stringified. */
  function AllEntries(fields: seq<Field>): (form: seq<Entry>)
    ensures |form| == |fields|
    ensures forall i :: 0 <= i < |fields| ==> form[i] == AsEntry(fields[i])
  {
    if fields == [] then [] else AllEntries(fields[..|fields| - 1]) + [AsEntry(fields[|fields| - 1])]
  }

  /** With every value present, update's filtered form and create's unfiltered one coincide. */
  lemma {:induction false} PresentEntriesAllScalar(fields: seq<Field>)
    requires forall i :: 0 <= i < |fields| ==> fields[i].value.Scalar?
    ensures PresentEntries(fields) == AllEntries(fields)
  {
    if fields != [] {
      var init := fields[..|fields| - 1];
      assert forall i :: 0 <= i < |init| ==> init[i] == fields[i];
      PresentEntriesAllScalar(init);
    }
  }

  /** One "images" entry per file, in order. */
  function ImageEntries(files: seq<File>): (form: seq<Entry>)
    ensures |form| == |files|
    ensures forall i :: 0 <= i < |files| ==> form[i] == Entry("images", Blob(files[i]))
  {
    if files == [] then [] else ImageEntries(files[..|files| - 1]) + [Entry("images", Blob(files[|files| - 1]))]
  }

  /** `images?: File[]`: an absent list appends nothing. */
  function FilesOf(images: Option<seq<File>>): seq<File> {
    if images.Some? then images.value else []
  }

  /** The request `updateProduct(id, data, images)` sends. */
  method UpdateProductRequest(apiUrl: string, id: string, data: seq<Field>, images: Option<seq<File>>)
    returns (req: Request)
    ensures req == Request(POST, UpdateUrl(apiUrl, id),
                           FormBody(PresentEntries(data) + ImageEntries(FilesOf(images))), true)
  {
    var form: seq<Entry> := [];
    var i := 0;
    while i < |data|
      invariant 0 <= i <= |data|
      invariant form == PresentEntries(data[..i])
    {
      assert data[..i + 1][..i] == data[..i];
      if data[i].value.Scalar? {
        form := form + [AsEntry(data[i])];
      }
      i := i + 1;
    }
    assert data[..|data|] == data;
    assert form == PresentEntries(data);
    if images.Some? && |images.value| > 0 {
      var files := images.value;
      var j := 0;
      while j < |files|
        invariant 0 <= j <= |files|
        invariant form == PresentEntries(data) + ImageEntries(files[..j])
      {
        assert files[..j + 1][..j] == files[..j];
        form := form + [Entry("images", Blob(files[j]))];
        j := j + 1;
      }
      assert files[..|files|] == files;
      assert form == PresentEntries(data) + ImageEntries(FilesOf(images));
    } else {
      assert FilesOf(images) == [];
      assert form == PresentEntries(data) + ImageEntries(FilesOf(images));
    }
    req := Request(POST, UpdateUrl(apiUrl, id), FormBody(form), true);
  }

  /** The request `createProduct(data, images)` sends: no filtering at all. */
  method CreateProductRequest(apiUrl: string, data: seq<Field>, images: seq<File>)
    returns (req: Request)
    ensures req == Request(POST, ProductsEndpoint(apiUrl),
                           FormBody(AllEntries(data) + ImageEntries(images)), true)
  {
    var form: seq<Entry> := [];
    var i := 0;
    while i < |data|
      invariant 0 <= i <= |data|
      invariant form == AllEntries(data[..i])
    {
      assert data[..i + 1][..i] == data[..i];
      form := form + [AsEntry(data[i])];
      i := i + 1;
    }
    assert data[..|data|] == data;
    var j := 0;
    while j < |images|
      invariant 0 <= j <= |images|
      invariant form == AllEntries(data) + ImageEntries(images[..j])
    {
      assert images[..j + 1][..j] == images[..j];
      form := form + [Entry("images", Blob(images[j]))];
      j := j + 1;
    }
    assert images[..|images|] == images;
    req := Request(POST, ProductsEndpoint(apiUrl), FormBody(form), true);
  }

  function FetchProductsRequest(apiUrl: string): (req: Request)
    ensures req.verb == GET && req.url == ProductsEndpoint(apiUrl) && req.body == NoBody && req.withCredentials
  {
    Request(GET, ProductsEndpoint(apiUrl), NoBody, true)
  }

  function DeleteProductRequest(apiUrl: string, id: string): (req: Request)
    ensures req.verb == DELETE && req.url == DeleteUrl(apiUrl, id) && req.body == NoBody && req.withCredentials
  {
    Request(DELETE, DeleteUrl(apiUrl, id), NoBody, true)
  }

  /** `updateProduct(id, {price: 10.5})` with no files sends the price alone. */
  lemma SingleFieldUpdate()
    ensures PresentEntries([Field("price", Scalar("10.5"))]) + ImageEntries(FilesOf(None))
            == [Entry("price", Text("10.5"))]
  {
  }

  // ----- products and their images -----

  datatype ProductStatus = Active | Inactive | Draft | Discontinued

  datatype ProductImage = ProductImage(url: string, alt: Option<string>, isPrimary: Option<bool>)

  /** A product record; `id` is the backend's `_id`, numbers are integers in this model. */
  datatype Product = Product(
    id: string, name: string, slug: Option<string>, description: string,
    price: int, stock: int, category: string, status: ProductStatus,
    images: Option<seq<ProductImage>>, createdAt: Option<string>, updatedAt: Option<string>)

  function StatusText(s: ProductStatus): string {
    match s
    case Active => "active"
    case Inactive => "inactive"
    case Draft => "draft"
    case Discontinued => "discontinued"
  }

  predicate IsPrimary(img: ProductImage) {
    img.isPrimary == Some(true)
  }

  /** `images.find(img => img.isPrimary)`, as an index. */
  function FindPrimary(imgs: seq<ProductImage>): (k: Option<nat>)
    ensures k.Some? ==> k.value < |imgs| && IsPrimary(imgs[k.value])
                        && forall j :: 0 <= j < k.value ==> !IsPrimary(imgs[j])
    ensures k.None? ==> forall j :: 0 <= j < |imgs| ==> !IsPrimary(imgs[j])
  {
    if imgs == [] then None
    else if IsPrimary(imgs[0]) then Some(0)
    else match FindPrimary(imgs[1..])
      case Some(k) => Some(k + 1)
      case None => None
  }

  /** Index `i` is the image `getProductPrimaryImageUrl` picks: the first primary one, or the first
      one when none is primary. */
  predicate Chosen(imgs: seq<ProductImage>, i: int) {
    0 <= i < |imgs|
    && ((IsPrimary(imgs[i]) && forall j :: 0 <= j < i ==> !IsPrimary(imgs[j]))
        || (i == 0 && forall j :: 0 <= j < |imgs| ==> !IsPrimary(imgs[j])))
  }

  /** A non-empty image list has a chosen image: the first primary one, else the first one. */
  lemma ChosenExists(imgs: seq<ProductImage>)
    requires imgs != []
    ensures exists i :: Chosen(imgs, i)
  {
    match FindPrimary(imgs)
    case Some(k) => assert Chosen(imgs, k);
    case None => assert Chosen(imgs, 0);
  }

  /** At most one image is chosen; with `ChosenExists`, a non-empty list has exactly one. */
  lemma ChosenUnique(imgs: seq<ProductImage>, i: int, k: int)
    requires Chosen(imgs, i) && Chosen(imgs, k)
    ensures i == k
  {
  }

  /** `getProductPrimaryImageUrl(product)`. */
  function PrimaryImageUrl(apiUrl: string, p: Product): (r: Option<string>)
    ensures p.images.None? || p.images.value == [] ==> r.None?
    ensures forall i :: p.images.Some? && Chosen(p.images.value, i) ==>
              (r.Some? <==> p.images.value[i].url != "")
              && (r.Some? ==> r.value == apiUrl + "/uploads/products/" + p.images.value[i].url)
  {
    if p.images.None? || p.images.value == [] then None
    else
      var imgs := p.images.value;
      var k := match FindPrimary(imgs) case Some(k) => k case None => 0;
      assert Chosen(imgs, k);
      if imgs[k].url == "" then None else Some(apiUrl + "/uploads/products/" + imgs[k].url)
  }
}
