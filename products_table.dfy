/** The products table: loads the catalogue once, lets a row be edited in a dialog
    and saved, deletes rows, and sends the user to '/login' whenever an error
    message mentions "Authentication required". */
module ProductsTable {
  import opened Js
  import opened Http
  import opened ListEdits
  import opened ProductsApi

  const AuthMarker := "Authentication required"
  const LoadFailed := "Failed to load products"
  const MaxImages := 3

  /** What a handler does with an error it caught. */
  datatype Reaction = ToLogin | Report(text: string)

  /** `e?.message?.includes("Authentication required") ? router.push("/login") : <report>(e?.message || fallback)`. */
  function ErrorReaction(e: Error, fallback: string): (r: Reaction)
    ensures r == ToLogin <==> Contains(e.message, AuthMarker)
    ensures r.Report? ==> r.text == MessageOr(e, fallback)
  {
    if Contains(e.message, AuthMarker) then ToLogin else Report(MessageOr(e, fallback))
  }

  /** The error every product operation raises on a 401 sends the user to '/login'. */
  lemma AuthRequiredGoesToLogin(fallback: string)
    ensures ErrorReaction(Error(AuthRequired), fallback) == ToLogin
  {
    assert OccursAt(AuthRequired, AuthMarker, 0);
  }

  /** A 401 from the delete or update endpoint is answered with the login redirect, whatever its body. */
  lemma UnauthorizedMutationGoesToLogin(body: Body)
    ensures ErrorReaction(DeleteProductResult(Resolved(Response(401, body))).value, DeleteFailed) == ToLogin
    ensures ErrorReaction(ProductResult(Resolved(Response(401, body)), UpdateFailed).error, UpdateFailed) == ToLogin
  {
    UnauthorizedIsAuthRequired(body);
    AuthRequiredGoesToLogin(DeleteFailed);
    AuthRequiredGoesToLogin(UpdateFailed);
  }

  /** Only the text is looked at: a backend error of another status whose message mentions the
      marker also sends the user to '/login'. */
  lemma MarkerInAnyMessageGoesToLogin(prefix: string, suffix: string, fallback: string)
    ensures ErrorReaction(Error(prefix + AuthMarker + suffix), fallback) == ToLogin
  {
    assert OccursAt(prefix + AuthMarker + suffix, AuthMarker, |prefix|) by {
      assert (prefix + AuthMarker + suffix)[|prefix|..|prefix| + |AuthMarker|] == AuthMarker;
    }
  }

  /** An error with an empty message is reported with the handler's fallback text, never as a redirect. */
  lemma EmptyMessageReportsFallback(fallback: string)
    ensures ErrorReaction(Error(""), fallback) == Report(fallback)
  {
  }

  function ProductId(p: Product): string {
    p.id
  }

  /** The row being edited; `imageFiles` is absent until the file input is used. */
  datatype EditableProduct = EditableProduct(product: Product, imageFiles: Option<seq<File>>)

  /** One table row as rendered: the product and the URL of its picture (None for the placeholder icon). */
  datatype RowView = RowView(product: Product, imageUrl: Option<string>)

  datatype TableView = LoadingText | ErrorText(text: string) | Rows(rows: seq<RowView>)

  function RowsOf(apiUrl: string, products: seq<Product>): (rows: seq<RowView>)
    ensures |rows| == |products|
    ensures forall i :: 0 <= i < |products| ==>
              rows[i].product == products[i] && rows[i].imageUrl == PrimaryImageUrl(apiUrl, products[i])
  {
    if products == [] then []
    else [RowView(products[0], PrimaryImageUrl(apiUrl, products[0]))] + RowsOf(apiUrl, products[1..])
  }

  /** The render: the loading text first, then a truthy error, then the rows. */
  function View(apiUrl: string, loading: bool, error: Option<string>, products: seq<Product>): (v: TableView)
    ensures loading <==> v == LoadingText
    ensures v.ErrorText? <==> !loading && error.Some? && error.value != ""
    ensures v.ErrorText? ==> v.text == error.value
    ensures v.Rows? ==> v.rows == RowsOf(apiUrl, products)
  {
    if loading then LoadingText
    else if error.Some? && error.value != "" then ErrorText(error.value)
    else Rows(RowsOf(apiUrl, products))
  }

  /** The payload `handleSave` passes to `updateProduct`: the six editable fields, all present. */
  function SavePayload(p: Product): (fields: seq<Field>)
    ensures |fields| == 6
    ensures forall i :: 0 <= i < |fields| ==> fields[i].value.Scalar?
  {
    [Field("name", Scalar(p.name)), Field("description", Scalar(p.description)),
     Field("price", Scalar(IntToString(p.price))), Field("stock", Scalar(IntToString(p.stock))),
     Field("category", Scalar(p.category)), Field("status", Scalar(StatusText(p.status)))]
  }

  /** Saving sends every editable field, in order, followed by the replacement images if any;
      id, slug, images and the timestamps are never sent. */
  lemma SaveSendsEditableFields(p: Product, files: Option<seq<File>>)
    ensures Keys(PresentEntries(SavePayload(p))) == ["name", "description", "price", "stock", "category", "status"]
    ensures forall i :: |SavePayload(p)| <= i < |PresentEntries(SavePayload(p)) + ImageEntries(FilesOf(files))| ==>
              (PresentEntries(SavePayload(p)) + ImageEntries(FilesOf(files)))[i].key == "images"
  {
    var f := SavePayload(p);
    PresentEntriesAllScalar(f);
    var ks := Keys(AllEntries(f));
    assert ks == ["name", "description", "price", "stock", "category", "status"] by {
      assert ks[0] == "name" && ks[1] == "description" && ks[2] == "price";
      assert ks[3] == "stock" && ks[4] == "category" && ks[5] == "status";
    }
  }

  /** `files ? Array.from(files).slice(0, 3) : []`. */
  function FirstImages(files: seq<File>): (kept: seq<File>)
    ensures |kept| <= MaxImages && |kept| <= |files|
    ensures kept == files[..|kept|]
    ensures |files| <= MaxImages ==> kept == files
  {
    if |files| <= MaxImages then files else files[..MaxImages]
  }

  datatype TextField = Name | Description | Category

  class Table {
    const apiUrl: string
    var products: seq<Product>
    var loading: bool
    var error: Option<string>
    var editing: Option<EditableProduct>
    var dialogOpen: bool
    var navigations: seq<Nav>
    var alerts: seq<string>
    var requests: seq<Request>

    /** A set error is always truthy, so the error view shows whenever an error was recorded. */
    ghost predicate Valid()
      reads this
    {
      error.Some? ==> error.value != ""
    }

    constructor (apiUrl: string)
      ensures Valid() && this.apiUrl == apiUrl
      ensures products == [] && loading && error.None? && editing.None? && !dialogOpen
      ensures navigations == [] && alerts == [] && requests == []
    {
      this.apiUrl := apiUrl;
      products := [];
      loading := true;
      error := None;
      editing := None;
      dialogOpen := false;
      navigations := [];
      alerts := [];
      requests := [];
    }

    /** The mount effect. `ignored` says the component unmounted before the fetch settled, in
        which case only the initial `setLoading(true)` has happened. */
    method LoadProducts(result: Result<seq<Product>, Error>, ignored: bool)
      requires Valid()
      modifies this
      ensures Valid()
      ensures requests == old(requests) + [FetchProductsRequest(apiUrl)]
      ensures loading == ignored
      ensures ignored ==> products == old(products) && error == old(error) && navigations == old(navigations)
      ensures !ignored && result.Success? ==>
                products == result.value && error == old(error) && navigations == old(navigations)
      ensures !ignored && result.Failure? ==>
                products == old(products)
                && match ErrorReaction(result.error, LoadFailed)
                   case ToLogin => navigations == old(navigations) + [Push("/login")] && error == old(error)
                   case Report(text) => navigations == old(navigations) && error == Some(text)
      ensures editing == old(editing) && dialogOpen == old(dialogOpen) && alerts == old(alerts)
    {
      loading := true;
      requests := requests + [FetchProductsRequest(apiUrl)];
      if !ignored {
        match result {
          case Success(data) =>
            products := data;
          case Failure(e) =>
            match ErrorReaction(e, LoadFailed) {
              case ToLogin =>
                navigations := navigations + [Push("/login")];
              case Report(text) =>
                error := Some(text);
            }
        }
        loading := false;
      }
    }

    /** `handleEdit(product)`: opens the dialog on a copy of the row with no new images. */
    method HandleEdit(product: Product)
      requires Valid()
      modifies this
      ensures Valid()
      ensures editing == Some(EditableProduct(product, None)) && dialogOpen
      ensures products == old(products) && loading == old(loading) && error == old(error)
      ensures navigations == old(navigations) && alerts == old(alerts) && requests == old(requests)
    {
      editing := Some(EditableProduct(product, None));
      dialogOpen := true;
    }

    /** `handleDelete(id)`: on success every row with that id is dropped. */
    method HandleDelete(id: string, outcome: FetchOutcome)
      requires Valid()
      modifies this
      ensures Valid()
      ensures requests == old(requests) + [DeleteProductRequest(apiUrl, id)]
      ensures DeleteProductResult(outcome).None? ==>
                products == Without(old(products), id, ProductId)
                && navigations == old(navigations) && alerts == old(alerts)
      ensures DeleteProductResult(outcome).Some? ==>
                products == old(products)
                && match ErrorReaction(DeleteProductResult(outcome).value, DeleteFailed)
                   case ToLogin => navigations == old(navigations) + [Push("/login")] && alerts == old(alerts)
                   case Report(text) => navigations == old(navigations) && alerts == old(alerts) + [text]
      ensures loading == old(loading) && error == old(error)
      ensures editing == old(editing) && dialogOpen == old(dialogOpen)
    {
      requests := requests + [DeleteProductRequest(apiUrl, id)];
      match DeleteProductResult(outcome)
      case None =>
        products := Without(products, id, ProductId);
      case Some(e) =>
        match ErrorReaction(e, DeleteFailed)
        case ToLogin =>
          navigations := navigations + [Push("/login")];
        case Report(text) =>
          alerts := alerts + [text];
    }

    /** `handleSave()`: nothing without a row being edited; otherwise the update is sent and, once
        it resolves to the updated product, that product replaces every row with its id and the
        dialog closes. On failure the dialog and the edited row stay as they were. */
    method HandleSave(result: Result<Product, Error>)
      requires Valid()
      modifies this
      ensures Valid()
      ensures old(editing).None? ==>
                requests == old(requests) && products == old(products) && editing == old(editing)
                && dialogOpen == old(dialogOpen) && navigations == old(navigations) && alerts == old(alerts)
      ensures old(editing).Some? ==>
                var p := old(editing).value.product;
                requests == old(requests) + [Request(POST, UpdateUrl(apiUrl, p.id),
                  FormBody(PresentEntries(SavePayload(p)) + ImageEntries(FilesOf(old(editing).value.imageFiles))), true)]
      ensures old(editing).Some? && result.Success? ==>
                products == Replaced(old(products), result.value, ProductId)
                && editing.None? && !dialogOpen
                && navigations == old(navigations) && alerts == old(alerts)
      ensures old(editing).Some? && result.Failure? ==>
                products == old(products) && editing == old(editing) && dialogOpen == old(dialogOpen)
                && match ErrorReaction(result.error, UpdateFailed)
                   case ToLogin => navigations == old(navigations) + [Push("/login")] && alerts == old(alerts)
                   case Report(text) => navigations == old(navigations) && alerts == old(alerts) + [text]
      ensures loading == old(loading) && error == old(error)
    {
      if editing.None? {
        return;
      }
      var p := editing.value.product;
      var req := UpdateProductRequest(apiUrl, p.id, SavePayload(p), editing.value.imageFiles);
      requests := requests + [req];
      match result
      case Success(updated) =>
        products := Replaced(products, updated, ProductId);
        dialogOpen := false;
        editing := None;
      case Failure(e) =>
        match ErrorReaction(e, UpdateFailed)
        case ToLogin =>
          navigations := navigations + [Push("/login")];
        case Report(text) =>
          alerts := alerts + [text];
    }

    /** The name, description and category inputs of the dialog. */
    method EditText(field: TextField, value: string)
      requires Valid() && editing.Some?
      modifies this
      ensures Valid()
      ensures var q := old(editing).value.product;
              editing == Some(old(editing).value.(product :=
                match field
                case Name => q.(name := value)
                case Description => q.(description := value)
                case Category => q.(category := value)))
      ensures products == old(products) && loading == old(loading) && error == old(error)
      ensures dialogOpen == old(dialogOpen) && navigations == old(navigations)
      ensures alerts == old(alerts) && requests == old(requests)
    {
      var q := editing.value.product;
      var q' := match field
        case Name => q.(name := value)
        case Description => q.(description := value)
        case Category => q.(category := value);
      editing := Some(editing.value.(product := q'));
    }

    /** The status select of the dialog. */
    method EditStatus(status: ProductStatus)
      requires Valid() && editing.Some?
      modifies this
      ensures Valid()
      ensures editing == Some(old(editing).value.(product := old(editing).value.product.(status := status)))
      ensures products == old(products) && loading == old(loading) && error == old(error)
      ensures dialogOpen == old(dialogOpen) && navigations == old(navigations)
      ensures alerts == old(alerts) && requests == old(requests)
    {
      editing := Some(editing.value.(product := editing.value.product.(status := status)));
    }

    /** The image input: keeps at most the first three picked files (none when the list is missing). */
    method SelectImages(files: Option<seq<File>>)
      requires Valid() && editing.Some?
      modifies this
      ensures Valid()
      ensures editing == Some(old(editing).value.(imageFiles :=
                Some(if files.Some? then FirstImages(files.value) else [])))
      ensures products == old(products) && loading == old(loading) && error == old(error)
      ensures dialogOpen == old(dialogOpen) && navigations == old(navigations)
      ensures alerts == old(alerts) && requests == old(requests)
    {
      editing := Some(editing.value.(imageFiles := Some(if files.Some? then FirstImages(files.value) else [])));
    }

    /** The dialog's Cancel button and its close request: the edited row is kept. */
    method CloseDialog()
      requires Valid()
      modifies this
      ensures Valid()
      ensures !dialogOpen && editing == old(editing)
      ensures products == old(products) && loading == old(loading) && error == old(error)
      ensures navigations == old(navigations) && alerts == old(alerts) && requests == old(requests)
    {
      dialogOpen := false;
    }
  }

  /** A table mounted without a valid session: the first load fails with the authentication
      error, the user is sent to '/login', and meanwhile the empty rows show, never an error text. */
  method AuthFailedLoadShowsRows(apiUrl: string, e: Error) returns (t: Table)
    requires Contains(e.message, AuthMarker)
    ensures fresh(t) && t.Valid() && t.apiUrl == apiUrl
    ensures t.navigations == [Push("/login")] && t.error.None? && !t.loading
    ensures View(t.apiUrl, t.loading, t.error, t.products) == Rows([])
  {
    t := new Table(apiUrl);
    t.LoadProducts(Failure(e), false);
  }

  /** A load that fails for another reason shows the error, and the text is never empty. */
  lemma FailedLoadShowsError(apiUrl: string, e: Error, products: seq<Product>)
    requires !Contains(e.message, AuthMarker)
    ensures View(apiUrl, false, Some(ErrorReaction(e, LoadFailed).text), products).ErrorText?
  {
  }

  /** Deleting and then saving the same product never brings the row back. */
  lemma SaveAfterDeleteAddsNothing(products: seq<Product>, updated: Product)
    ensures forall i :: 0 <= i < |Replaced(Without(products, updated.id, ProductId), updated, ProductId)| ==>
              Replaced(Without(products, updated.id, ProductId), updated, ProductId)[i].id != updated.id
  {
    ReplacedAbsent(Without(products, updated.id, ProductId), updated, ProductId);
  }
}
