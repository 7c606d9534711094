# indesign-dashboard admin console, modelled in Dafny

This project models the core of the indesign-dashboard admin console, a Next.js application.

- **Session.** An edge middleware turns away dashboard requests without a `token` cookie. An auth provider, a profile provider and the dashboard page each ask the backend's `/admin/profile` endpoint who is logged in. The dashboard layout shows its children only to an authenticated session.
- **API wrappers.** Two thin wrappers talk to the backend: one for products (`lib/api.ts`, which turns a 401 into "Authentication required. Please log in.") and one for blogs (`lib/blogs.ts`, which refuses to run without a configured base URL).
- **Tables and form.** Three tables let an administrator list, edit and delete products, shops and blog posts. A form creates a blog post.

What the model treats as inputs and outputs:

- Every network answer is an input: a `FetchOutcome` is a response with a status and a body, or a rejection.
- Every side effect is recorded as a value. Sent requests go to `requests`, router calls to `navigations` (`Push` or `Replace`) and `alert` calls to `alerts`.
- A component whose React state changes step by step is a class. Its fields are that state, and its methods are the component's handlers.
- Pure helpers are functions.

The JavaScript behaviour the code relies on is written out in module `Js`: truthiness, `||` and `??`, property access on `null` (a `TypeError`), `?.`, `String()`, `trim()`, `toLowerCase()` and `includes()`.

One module per source file, plus four shared modules:

- `Js`: JavaScript value semantics.
- `Http`: responses, requests, multipart forms and navigation.
- `Session`: the profile lookup shared by three components.
- `ListEdits`: the filter-by-id and replace-by-id edits all three tables apply.

Where the behaviour described for the system differs from the code, the model follows the code. The chief case is logout: its state is reset only after the logout POST resolves, and a rejected POST leaves everything as it was.

## Model

| member | source | states |
|---|---|---|
| Middleware.Handle | middleware.ts:4-22 | redirects to '/login' on the request's own URL exactly when the path starts with '/dashboard' and the `token` cookie is absent or the cookie store throws; otherwise passes the request on |
| Middleware.Edge | middleware.ts:24-26 | paths outside '/dashboard' and '/dashboard/...' never reach the middleware and pass; matched paths get `Handle` |
| Middleware.MatchedIsProtected | middleware.ts:6-25 | every path the matcher routes to the middleware also passes its own prefix test |
| Middleware.PresenceOnly | middleware.ts:9-14 | on a dashboard path, the presence of `token` alone lets the request through, whatever its value, other cookies or URL |
| Middleware.MissingCookieRedirects | middleware.ts:11-13 | removing `token` from a dashboard request turns the answer into the redirect |
| Middleware.UnprotectedPasses | middleware.ts:6-21 | a path outside the prefix passes whatever its cookies |
| Middleware.PrefixIsTextual | middleware.ts:6-25 | '/dashboardx' passes the middleware's textual prefix test, but the matcher never routes it there |
| Session.ProfileRequest | context/AuthContext.tsx:34-36 | the profile lookup is a credentialed GET of `<NEXT_PUBLIC_API_URL>/admin/profile`, with "undefined" for an unset variable |
| Session.Resolve | context/AuthContext.tsx:37-39 | an identity exists exactly when the fetch resolved, the status is 200-299 and the body decodes; it is the decoded body |
| Session.NonOkNeverResolves | context/AuthContext.tsx:37 | a status outside 200-299 never yields an identity, whatever the body |
| AuthContext.AfterCheckAuth | context/AuthContext.tsx:32-53 | after `checkAuth` settles, loading is off; the state is authenticated exactly when the profile resolved, with that identity as user, and otherwise has a null user |
| AuthContext.LoginError | context/AuthContext.tsx:65-68 | `login` rethrows nothing exactly when the POST answers ok; a rejection rethrows its error, an undecodable body its decoding error, a null body the TypeError of reading `message`, and any other body `message || 'Login failed'` |
| AuthContext.LoginRequest | context/AuthContext.tsx:58-63 | a credentialed POST of the JSON object {email, password} to `/login` |
| AuthContext.LogoutRequest | context/AuthContext.tsx:80-83 | a credentialed POST without body to `/logout` |
| AuthContext.AuthProvider.constructor | context/AuthContext.tsx:19-23 | the provider starts unauthenticated, with a null user and loading on |
| AuthContext.AuthProvider.CheckAuth | context/AuthContext.tsx:32-53 | sends the profile lookup, overwrites the state with `AfterCheckAuth` and keeps every state it publishes coherent (unauthenticated implies no user) |
| AuthContext.AuthProvider.Login | context/AuthContext.tsx:55-76 | publishes a loading state, sends the credentials, and then either clears loading only and rethrows `LoginError`, or runs `CheckAuth` and replaces the route with '/dashboard' |
| AuthContext.AuthProvider.Logout | context/AuthContext.tsx:78-93 | once the POST resolves, whatever its status, resets the state and replaces the route with '/login'; a rejected POST changes nothing but the request log |
| AuthContext.UseAuth | context/AuthContext.tsx:106-112 | outside a provider it throws 'useAuth must be used within an AuthProvider'; inside, it returns the provider |
| AuthContext.LoginNavigatesEvenWhenProfileFails | context/AuthContext.tsx:70-71 | an ok login answer raises nothing even when the profile lookup then fails, which leaves the unauthenticated state with a null user; by `Login`'s contract the route is still replaced with '/dashboard' |
| AuthContext.AuthenticatedWithNullUser | context/AuthContext.tsx:39-44 | a 200 answer whose body is `null` yields an authenticated state with a null user |
| AuthContext.LoginErrorMessages | context/AuthContext.tsx:65-68 | a backend `message` is rethrown verbatim; without one the error is 'Login failed' |
| DashboardLayout.Layout | app/dashboard/layout.tsx:12-29 | children render exactly when loading is off and the session is authenticated; `Replace('/login')` is issued exactly when loading is off and it is not |
| DashboardLayout.RenderAndRedirectExclusive | app/dashboard/layout.tsx:15-28 | rendering the children and redirecting never happen together |
| DashboardLayout.LoadingShowsNothing | app/dashboard/layout.tsx:21-24 | while loading nothing is rendered and no redirect is issued |
| DashboardLayout.GateAfterCheckAuth | app/dashboard/layout.tsx:15-28 | once `checkAuth` has settled, the dashboard shows exactly when the profile resolved, and otherwise the layout redirects to '/login' |
| DashboardLayout.LoginInFlightHides | app/dashboard/layout.tsx:21-24 | a login in flight hides the dashboard even from an already authenticated user |
| ProfileContext.ProfileProvider.constructor | context/ProfileContext.tsx:37-38 | the profile starts undefined and loading on |
| ProfileContext.ProfileProvider.Mount | context/ProfileContext.tsx:45-61 | sends the profile lookup and clears loading; a resolved identity is stored, and any failure keeps the profile and pushes '/login' |
| ProfileContext.ProfileProvider.SetIsLoading | context/ProfileContext.tsx:64-69 | the exposed setter changes only the loading flag |
| DashboardPage.View | app/dashboard/page.tsx:39-42 | the loading placeholder is rendered exactly while loading |
| DashboardPage.Page.constructor | app/dashboard/page.tsx:18-19 | the profile starts null and loading on |
| DashboardPage.Page.Mount | app/dashboard/page.tsx:23-37 | sends the profile lookup and clears loading, so the dashboard renders; a resolved identity is stored, and any failure keeps the null profile and pushes '/login' |
| ProductsApi.ApiUrl | lib/api.ts:1 | the configured base URL when it is non-empty, else 'http://localhost:5000', never empty |
| ProductsApi.ActionUrl | lib/api.ts:39-76 | the delete and update URLs: the products endpoint, then '/delete/' or '/update/', then the id, which can be read back |
| ProductsApi.UrlsSeparateIds | lib/api.ts:39-76 | distinct ids give distinct delete URLs and distinct update URLs, and no delete URL is an update URL |
| ProductsApi.FetchProductsError | lib/api.ts:29-34 | a 401 raises 'Authentication required. Please log in.'; any other non-ok status raises 'Failed to fetch products: <status>' |
| ProductsApi.MutationError | lib/api.ts:43-49 | a 401 raises the authentication message before reading the body; otherwise `err?.error || fallback` over the body read with an empty-object fallback |
| ProductsApi.FetchProductsResult | lib/api.ts:24-36 | a rejection is passed on, a non-ok status raises `FetchProductsError`, and an ok answer yields the decoded body |
| ProductsApi.DeleteProductResult | lib/api.ts:38-50 | deleting raises nothing exactly when the answer is ok; otherwise `MutationError` with 'Failed to delete product' |
| ProductsApi.ProductResult | lib/api.ts:81-89 | a rejection is passed on; a non-ok answer raises `MutationError` with the operation's fallback; an ok answer yields `result.product` (absent when missing), except that an undecodable body raises its decoding error and a `null` body the TypeError of reading `product` |
| ProductsApi.UnauthorizedIsAuthRequired | lib/api.ts:30-31 | a 401 from any product operation raises exactly the authentication message, whatever the body |
| ProductsApi.PresentEntriesAppend | lib/api.ts:67-71 | building the update form distributes over concatenating payload fields |
| ProductsApi.PresentEntriesExact | lib/api.ts:67-71 | the update form holds exactly the payload fields that are neither undefined nor null, as `String(value)` |
| ProductsApi.AllEntries | lib/api.ts:106-108 | the create form has one entry per payload field, in order, each as `String(value)` |
| ProductsApi.ImageEntries | lib/api.ts:73 | one 'images' entry per file, in order |
| ProductsApi.PresentEntriesAllScalar | lib/api.ts:67-71 | when every payload value is present, the update form's fields are exactly the create form's |
| ProductsApi.UpdateProductRequest | lib/api.ts:61-80 | a credentialed POST to the update URL whose form has the present payload fields in order, followed by one 'images' entry per file when the list is non-empty |
| ProductsApi.CreateProductRequest | lib/api.ts:101-115 | a credentialed POST to the products endpoint whose form has every payload field as `String(value)`, followed by one 'images' entry per file |
| ProductsApi.FetchProductsRequest | lib/api.ts:25-28 | a credentialed GET of the products endpoint |
| ProductsApi.DeleteProductRequest | lib/api.ts:39-42 | a credentialed DELETE of the delete URL |
| ProductsApi.SingleFieldUpdate | lib/api.ts:67-74 | an update of only the price, without images, sends exactly one 'price' entry |
| ProductsApi.FindPrimary | lib/api.ts:128 | finds the index of the first image flagged primary, and finds none exactly when no image is flagged |
| ProductsApi.ChosenExists | lib/api.ts:127-129 | a non-empty image list has a chosen image: the first primary one, or the first one when none is primary |
| ProductsApi.ChosenUnique | lib/api.ts:128 | at most one image is the chosen one |
| ProductsApi.PrimaryImageUrl | lib/api.ts:127-132 | null without images or when the chosen image's url is empty; otherwise `<api>/uploads/products/<url>` of the first primary image, or of the first image when none is primary |
| BlogsApi.EnsureApiUrl | lib/blogs.ts:14-20 | succeeds exactly for a set, non-empty base URL; otherwise throws 'NEXT_PUBLIC_API_URL is not set' |
| BlogsApi.BlogError | lib/blogs.ts:49-52 | a non-ok answer raises `err.error || fallback` over the body read with an empty-object fallback; a null body throws the TypeError of reading `error` |
| BlogsApi.BlogList | lib/blogs.ts:29-30 | an array body is the list itself; a null body throws reading `blogs`; any other body yields `blogs ?? []` |
| BlogsApi.FetchBlogs | lib/blogs.ts:22-31 | unconfigured, nothing is sent; otherwise a credentialed GET of '/blogs', where a rejection is passed on, non-ok raises 'Failed to fetch blogs' without reading the body, an undecodable ok body raises its decoding error, and a decoded one yields `BlogList` of it |
| BlogsApi.CreateBlogForm | lib/blogs.ts:39-42 | the create form is exactly title, content and featured_image, in that order |
| BlogsApi.FirstTruthy | lib/blogs.ts:54 | the first truthy property among the keys, or the object itself when none is truthy |
| BlogsApi.Normalised | lib/blogs.ts:53-54 | the value a successful mutation resolves to: a null body throws reading the first key, otherwise `FirstTruthy` over the body read with an empty-object fallback |
| BlogsApi.CreateBlog | lib/blogs.ts:33-55 | unconfigured, throws before sending; otherwise POSTs the create form to '/blogs', raises `BlogError` with 'Failed to create blog' on non-ok, and resolves to `data.blog \|\| data` |
| BlogsApi.TextIfTruthy | lib/blogs.ts:65-66 | an absent or empty text is not appended; a truthy one is appended under its key |
| BlogsApi.UpdateBlogForm | lib/blogs.ts:64-67 | at most three entries; the form is empty exactly when no field is truthy and no file is given |
| BlogsApi.UpdateBlogFormKeys | lib/blogs.ts:64-67 | each key is in the update form exactly when its value is given and truthy |
| BlogsApi.UpdateBlog | lib/blogs.ts:57-81 | POSTs the update form to '/blogs/update/<id>', raises `BlogError` with 'Failed to update blog', and resolves to `data.blog \|\| data.UpdateBlog \|\| data` |
| BlogsApi.DeleteBlog | lib/blogs.ts:83-93 | sends a credentialed DELETE of '/blogs/delete/<id>' and raises `BlogError` with 'Failed to delete blog' on non-ok |
| BlogsApi.Likes | lib/blogs.ts:105-106 | `likes ?? 0` over the body read with an empty-object fallback, so an undecodable body gives 0 |
| BlogsApi.ToggleLikeBlog | lib/blogs.ts:95-107 | POSTs to '/blogs/like/<id>', raises `BlogError` with 'Failed to toggle like', and resolves to the like count |
| BlogsApi.BlogImageUrl | lib/blogs.ts:109-113 | '' for a missing or empty name; the bare name when the base URL is not configured; else `<api>/uploads/images/<name>` |
| BlogsApi.UnconfiguredSendsNothing | lib/blogs.ts:16-20 | without a base URL every blog operation throws the configuration error and sends nothing |
| BlogsApi.NoSpecialUnauthorized | lib/blogs.ts:89-92 | a 401 gets no special treatment: it surfaces the backend's `error` text, or the operation's fallback |
| BlogsApi.CreateBlogResult | lib/blogs.ts:53-54 | a create answer `{"blog": b}` resolves to b; an answer without `blog` resolves to the whole body |
| ListEdits.Without | components/products-table.tsx:81 | `filter(r => r.id !== id)`: no surviving row has the id, and the list never grows |
| ListEdits.WithoutMembers | components/products-table.tsx:81 | a row survives the filter exactly when it was in the list and has another id |
| ListEdits.WithoutAppend | components/products-table.tsx:81 | filtering distributes over concatenation, so the surviving rows keep their order |
| ListEdits.WithoutAbsent | components/shops-table.tsx:98 | deleting an id no row has leaves the list unchanged |
| ListEdits.WithoutIdempotent | components/blogs-table.tsx:91 | deleting the same id twice is deleting it once |
| ListEdits.WithoutUnique | components/shops-table.tsx:98 | with unique ids, deleting a row's id removes exactly that row |
| ListEdits.Replaced | components/products-table.tsx:107 | `map(r => r.id === u.id ? u : r)`: rows with u's id become u and every other row is untouched |
| ListEdits.ReplacedKeepsKeys | components/products-table.tsx:107 | replacing keeps the length and every row's id |
| ListEdits.ReplacedAbsent | components/products-table.tsx:107 | an update whose id is in no row changes nothing; the row is not added |
| ListEdits.ReplacedIdempotent | components/shops-table.tsx:102-104 | applying the same update twice is applying it once |
| ListEdits.WithoutAfterReplaced | components/products-table.tsx:81-107 | deleting after an update equals deleting straight away |
| ListEdits.WithoutKeepsUnique | components/shops-table.tsx:98 | deleting keeps ids unique |
| ListEdits.ReplacedKeepsUnique | components/shops-table.tsx:102-104 | replacing keeps ids unique |
| ProductsTable.ErrorReaction | components/products-table.tsx:58-62 | a caught error sends the user to '/login' exactly when its message contains "Authentication required"; otherwise `message \|\| fallback` is reported |
| ProductsTable.AuthRequiredGoesToLogin | components/products-table.tsx:83-84 | the error a 401 raises always sends the user to '/login' |
| ProductsTable.UnauthorizedMutationGoesToLogin | components/products-table.tsx:83-112 | a 401 answer to delete or update goes to '/login', whatever its body |
| ProductsTable.MarkerInAnyMessageGoesToLogin | components/products-table.tsx:58 | any message containing the marker goes to '/login', whatever its status |
| ProductsTable.EmptyMessageReportsFallback | components/products-table.tsx:86 | an error with an empty message is reported with the handler's fallback |
| ProductsTable.RowsOf | components/products-table.tsx:163-166 | one row per product, in order, each with its primary image URL |
| ProductsTable.View | components/products-table.tsx:140-147 | the loading text while loading; else the error when it is truthy; else the rows |
| ProductsTable.SavePayload | components/products-table.tsx:94-104 | the save payload has six fields, all present |
| ProductsTable.SaveSendsEditableFields | components/products-table.tsx:94-106 | saving sends name, description, price, stock, category and status, in that order, then only 'images' entries; id, slug, images and the timestamps are never sent |
| ProductsTable.FirstImages | components/products-table.tsx:321 | at most the first three picked files are kept, in order |
| ProductsTable.Table.constructor | components/products-table.tsx:41-45 | no products, loading on, no error, nothing being edited, the dialog closed |
| ProductsTable.Table.LoadProducts | components/products-table.tsx:47-71 | sends the fetch; unless the component unmounted, stores the products, or goes to '/login' on an authentication error, or records the error text, and then clears loading; a recorded error is never empty |
| ProductsTable.Table.HandleEdit | components/products-table.tsx:73-76 | opens the dialog on the product, with no new images |
| ProductsTable.Table.HandleDelete | components/products-table.tsx:78-89 | sends the delete; on success drops every row with the id; on failure goes to '/login' or alerts `message \|\| 'Failed to delete product'` |
| ProductsTable.Table.HandleSave | components/products-table.tsx:91-117 | does nothing without a product being edited; otherwise sends the six-field update with the picked images; on success replaces the rows with the updated product's id and closes the dialog; on failure keeps the dialog and goes to '/login' or alerts |
| ProductsTable.Table.EditText | components/products-table.tsx:237-295 | the name, description and category inputs change only that field of the edited product |
| ProductsTable.Table.EditStatus | components/products-table.tsx:298-311 | the status select changes only the edited product's status |
| ProductsTable.Table.SelectImages | components/products-table.tsx:320-323 | the file input stores at most the first three picked files, and none when the list is missing |
| ProductsTable.Table.CloseDialog | components/products-table.tsx:329 | Cancel closes the dialog and keeps the edited product |
| ProductsTable.AuthFailedLoadShowsRows | components/products-table.tsx:41-71 | a freshly mounted table whose first load fails with the authentication error has pushed '/login', recorded no error, cleared loading, and shows its empty rows rather than an error text |
| ProductsTable.FailedLoadShowsError | components/products-table.tsx:61-65 | any other load failure shows the error view |
| ProductsTable.SaveAfterDeleteAddsNothing | components/products-table.tsx:81-107 | saving a product after deleting it never brings its row back |
| ShopsTable.MockShops | components/shops-table.tsx:48-85 | the three sample shops, with unique ids '1', '2' and '3' |
| ShopsTable.Table.constructor | components/shops-table.tsx:88-90 | starts on the sample shops, with nothing edited and the dialog closed |
| ShopsTable.Table.HandleEdit | components/shops-table.tsx:92-95 | opens the dialog on the shop |
| ShopsTable.Table.HandleDelete | components/shops-table.tsx:97-99 | drops every row with the id, keeping ids unique and every row a sample shop |
| ShopsTable.Table.Save | components/shops-table.tsx:101-107 | with a shop being edited, replaces the row with its id and closes the dialog; without one, does nothing |
| ShopsTable.Table.EditText | components/shops-table.tsx:206-231 | the name, domain and description inputs change only that field |
| ShopsTable.Table.EditStatus | components/shops-table.tsx:240-250 | the status select changes only the status |
| ShopsTable.Table.CloseDialog | components/shops-table.tsx:255 | Cancel closes the dialog and keeps the edited shop |
| ShopsTable.SaveChangesOneRow | components/shops-table.tsx:101-104 | with unique ids, saving an edited shop changes that row only, in place |
| ShopsTable.DeleteRemovesOneRow | components/shops-table.tsx:97-99 | with unique ids, deleting a listed shop removes exactly that row |
| ShopsTable.DeleteSecondSample | components/shops-table.tsx:48-99 | deleting shop '2' leaves shops '1' and '3', in order |
| BlogsTable.RowStatus | components/blogs-table.tsx:63 | the lower-cased status, or 'published' when it is missing or empty; never empty and already lower case |
| BlogsTable.ToRow | components/blogs-table.tsx:59-69 | a post becomes a row with the same id, title, content and dates, its author id, no tags and the blog image URL |
| BlogsTable.RowsOf | components/blogs-table.tsx:59-69 | one row per post, in order |
| BlogsTable.Tags | components/blogs-table.tsx:149-158 | the tag cell shows the first two tags, plus a "+n" badge that counts the rest when there are more than two |
| BlogsTable.FetchSent | lib/blogs.ts:22-27 | the load sends the GET of '/blogs' exactly when the base URL is configured |
| BlogsTable.FetchSentIsFetchBlogs | lib/blogs.ts:22-27 | this is the request `FetchBlogs` records, whatever the answer |
| BlogsTable.Table.constructor | components/blogs-table.tsx:49-53 | no rows, nothing edited, the dialog closed, loading on, no picked image |
| BlogsTable.Table.LoadBlogs | components/blogs-table.tsx:55-76 | never throws; a successful fetch replaces the rows, a failure keeps them, and loading ends off; every row stays well formed |
| BlogsTable.Table.HandleEdit | components/blogs-table.tsx:82-86 | opens the dialog on the row and forgets a previously picked image |
| BlogsTable.Table.HandleDelete | components/blogs-table.tsx:88-95 | sends the delete when configured; success drops the rows with the id, and failure alerts `message \|\| 'Failed to delete'` |
| BlogsTable.Table.Save | components/blogs-table.tsx:243-258 | without a row being edited nothing happens; otherwise sends the update of title, content and the picked image, then applies its outcome |
| BlogsTable.Table.ApplySave | components/blogs-table.tsx:252-257 | on success reloads the list, closes the dialog and clears the edited row; on failure alerts `message \|\| 'Failed to save changes'` and leaves the dialog open |
| BlogsTable.Table.EditText | components/blogs-table.tsx:210-225 | the title and excerpt inputs change only that field of the edited row |
| BlogsTable.Table.SelectImage | components/blogs-table.tsx:234 | keeps the first picked file, or none |
| BlogsTable.Table.CloseDialog | components/blogs-table.tsx:240 | Cancel closes the dialog and keeps the edited row |
| BlogsTable.ApiRowsShowNoTags | components/blogs-table.tsx:67-158 | rows loaded from the API always show an empty tag cell |
| BlogsTable.ListedRowsShowNoTags | components/blogs-table.tsx:63-158 | in every state the table's handlers keep, each listed row shows an empty tag cell and a non-empty, lower-case status |
| BlogsTable.StatusExamples | components/blogs-table.tsx:63 | 'Draft' is shown as 'draft' and an empty status as 'published' |
| BlogsTable.MissingImageIsPlaceholder | components/blogs-table.tsx:68-142 | a post without a picture gets the placeholder whether or not the API is configured |
| BlogsTable.SaveSucceedsWhen | components/blogs-table.tsx:243-257 | the dialog closes exactly when the API is configured, the update answers ok and its body is not null |
| NewBlogForm.AddTag | components/new-blog-form.tsx:27-35 | appends the trimmed text and clears the box, unless the trimmed text is empty or already a tag; then nothing changes |
| NewBlogForm.RemoveTag | components/new-blog-form.tsx:37-42 | drops every copy of the tag, keeps the other tags in order, and changes no other field |
| NewBlogForm.AddTagPreserves | components/new-blog-form.tsx:27-35 | adding keeps the tags distinct, non-empty and trimmed |
| NewBlogForm.RemoveTagPreserves | components/new-blog-form.tsx:37-42 | removing keeps the tags distinct, non-empty and trimmed |
| NewBlogForm.AddTagTwice | components/new-blog-form.tsx:28 | adding the same text twice adds one tag |
| NewBlogForm.RemoveAfterAdd | components/new-blog-form.tsx:27-42 | removing a tag just added restores the previous list |
| NewBlogForm.AddTagTrims | components/new-blog-form.tsx:28-31 | ' news ' is stored as 'news' |
| NewBlogForm.AddProperTag | components/new-blog-form.tsx:28-31 | a text that is already a trimmed, new tag is appended as it is |
| NewBlogForm.Form.constructor | components/new-blog-form.tsx:16-24 | empty title, content, tags and tag box, status 'draft', no image, not submitting |
| NewBlogForm.Form.HandleAddTag | components/new-blog-form.tsx:27-35 | applies `AddTag` and keeps the form's tags well formed |
| NewBlogForm.Form.HandleRemoveTag | components/new-blog-form.tsx:37-42 | applies `RemoveTag` and keeps the form's tags well formed |
| NewBlogForm.Form.EditText | components/new-blog-form.tsx:81-106 | the title and content inputs change only that field |
| NewBlogForm.Form.EditStatus | components/new-blog-form.tsx:118-121 | the status select changes only the status |
| NewBlogForm.Form.EditNewTag | components/new-blog-form.tsx:134-137 | the tag box changes only its text |
| NewBlogForm.Form.SelectImage | components/new-blog-form.tsx:92-95 | keeps the first picked file, or none |
| NewBlogForm.Form.Settle | components/new-blog-form.tsx:51-62 | once the create call settles: records the request it sent, pushes '/dashboard/blogs' on success or alerts `message \|\| 'Failed to create blog'`, and lowers `submitting` |
| NewBlogForm.Form.HandleSubmit | components/new-blog-form.tsx:44-63 | without an image, only alerts 'Please select a featured image'; otherwise raises and then lowers `submitting` and creates the post from title, content and image (status and tags are not sent); success pushes '/dashboard/blogs', and failure alerts `message \|\| 'Failed to create blog'` |
| Js.Get | lib/blogs.ts:30 | reading a property of `null` throws the TypeError naming the key; otherwise yields the property, undefined when it is missing |
| Js.ErrorFrom | lib/blogs.ts:51 | `new Error(v \|\| fallback)`: the message is `String(v)` when v is truthy, else the fallback |
| Js.MessageOr | components/products-table.tsx:61 | `e?.message \|\| fallback`: the message when it is non-empty, else the fallback |
| Js.NullAccess | lib/blogs.ts:30 | the TypeError for reading a property of `null` states that a property of null was read |
| Js.GetOpt | lib/api.ts:48 | `v?.key`: the property when v is an object holding the key, else undefined; on a non-null value it agrees with plain `v.key` |
| Js.Nullish | lib/blogs.ts:106 | `v ?? fallback`: the fallback exactly for undefined and null, the value itself otherwise |
| Js.StringOf | lib/api.ts:69 | `String(v)`: a string is itself and an object is '[object Object]' |
| Js.IntToString | lib/api.ts:33 | the decimal text of an integer is non-empty and starts with '-' exactly for a negative number |
| Js.NatToStringRoundTrip | lib/api.ts:33 | the decimal text of a status or number reads back as that number |
| Js.NatToStringInjective | lib/api.ts:69 | distinct numbers have distinct decimal texts |
| Js.Trim | components/new-blog-form.tsx:28 | `trim()`: the result neither starts nor ends with white space, and only white space was cut from either end |
| Js.TrimIdempotent | components/new-blog-form.tsx:28-31 | trimming twice is trimming once |
| Js.TrimEmpty | components/new-blog-form.tsx:28 | the trimmed text is empty exactly when the text is all white space |
| Js.ToLower | components/blogs-table.tsx:63 | `toLowerCase()` keeps the length and lowers each ASCII capital |
| Js.ToLowerIdempotent | components/blogs-table.tsx:63 | lowering twice is lowering once |

## Left out

- Transport details: headers (the login request's `Content-Type`), `cache: 'no-store'`, timing and retries. The model keeps only method, URL, body and whether credentials are sent.
- Concurrency: every handler runs to completion against a given outcome. Interleaved handlers, React's batching of state updates and stale closures are not modelled. An example of a stale closure is the blogs table's delete, which filters the `blogs` captured at render time.
- ProductsTable.Table.LoadProducts: takes the unmount flag as an input, and takes the fetched list as already-decoded products. The source casts the JSON without checking it.
- ProductsTable.Table.HandleSave: takes the update's outcome as an already-decoded product or an error. The TypeError raised when `result.product` is missing and `updated._id` is read is not modelled.
- BlogsTable.Table.LoadBlogs: takes the fetched list as already-decoded posts. The JSON returned by `fetchBlogs` is cast without checking. The list is otherwise an input: the model demands only that it be a failure when no base URL is configured, as `fetchBlogs` throws then (lib/blogs.ts:22-24); it does not derive the list from `FetchBlogs`.
- JSON numbers are integers. Fractions, `NaN` and exponent notation are out, and so are the price and stock inputs that parse text with `parseFloat`/`parseInt`.
- Currency formatting (`Intl.NumberFormat`), date formatting (`toLocaleDateString`), status badge colours and the rest of the markup are presentation and are not modelled.
- Js.ToLower: only ASCII letters are lowered, because full Unicode case mapping is out of scope.
- Js.NullAccess: reproduces the V8 wording of the TypeError. Other engines word it differently.
- `console.log` and `console.error` calls are not modelled.
- The blogs table's `handleSave(updatedBlog)` is never called, so only the dialog's Save button is modelled. The "View" menu item has no handler.
- The mount effects are modelled as running once. Re-runs caused by their dependency on the router are not modelled.
- The new-product form, new-shop form, `isLoggedInContext`, the hooks and the other pages are not part of this model.
