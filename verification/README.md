# Product-catalog CLI: command router and list presenter

This project models the logic of a small command-line client for a
product-catalog REST API, written in Dafny. The client is invoked as
`<method> <resource> [params...]`. Its main routine decides, from those
arguments alone, which one thing the invocation does. It either prints usage
help, prints "invalid GET command", prints "missing data", prints "command
not recognised", or sends exactly one HTTPS request: a verb, a path, and for
POST a JSON body. When the API returns a list, the presenter prints a header
with the count and then one numbered block per product. In each block the
description is cut to 100 characters and followed by `...`.

The files are:

- `js.dfy` (module `Js`): the JavaScript built-ins the client relies on.
  These are `undefined`-or-string values and their truthiness, reading past
  the end of an array, `String.prototype.split` on a one-character separator
  (empty segments kept), `String.prototype.substring`, and the decimal
  rendering of an integer in a template literal. Split, substring and the
  decimal rendering each come with an inverse or a characterising lemma.
- `router.dfy` (module `Router`): the `Outcome` datatype, the argument
  destructuring `ParseArgv`, and the router `Route`, which splits the resource
  on `'/'` just as the source does. It also holds `Expected`, a reference
  router written over a grammar of resources (`products`, `products/<id>`,
  `products/<a>/<b>...`) without splitting. `Route`'s contract states that
  the two agree on every input, and each routing case is a lemma derived from
  that.
- `presenter.dfy` (module `Presenter`): the `Product` record and the listing
  `ListLines`, a function that returns one string per console call. It also
  proves that the listing's numbering reads back as 1..n in input order.

Three behaviours of the code are easy to misread:

- Segment counts decide GET only when the first segment is `products`. Any
  other GET is "not recognised", not "invalid GET".
- Two messages are kept apart. A missing method or resource prints usage
  help. A command that matches no case prints "command not recognised".
- POST is matched on the whole resource being exactly `products`. So
  `POST products/` is "not recognised".

## Model

| member | source | states |
|---|---|---|
| `Js.Truthy` | index.js:104 | A parameter is falsy exactly when it is `undefined` or the empty string. So `!method`, `!resource` and `!title` reject only those two values, and `"0"` counts as given. |
| `Js.At` | index.js:101 | Reading index i of the parameters gives `undefined` exactly when i is past the end, and the element otherwise. |
| `Js.Split` | index.js:83 | `split("/")` gives one more segment than there are separators. No segment contains the separator. Joining the segments back with the separator rebuilds the input, so empty segments are kept. |
| `Js.SplitJoin` | index.js:83 | Split is the inverse of Join on every non-empty list of separator-free segments. |
| `Js.SplitAfterSegment` | index.js:83 | A separator-free segment followed by `/` is split off whole, and the rest is split on its own. |
| `Js.SplitWithoutSeparator` | index.js:83 | A resource without `/` is a single segment equal to itself. |
| `Js.SubstringFromZero` | index.js:14 | `substring(0, n)` is the prefix of length min(n, length). |
| `Js.Substring` | index.js:14 | `substring(start, end)` is the slice of the string that begins at the smaller of the two clamped indices and spans the distance between them. |
| `Js.NumberToString` | index.js:11 | A number inside a template literal prints as a non-empty run of decimal digits that starts with `0` only for zero. |
| `Js.NumberToStringRoundTrip` | index.js:11 | Reading the decimal digits printed for an entry number gives that number back. |
| `Js.NumberToStringInjective` | index.js:11 | Different entry numbers are printed differently. |
| `Router.ParseArgv` | index.js:4 | Destructuring the argument vector: the method is present iff there are at least 3 arguments, and the resource iff there are at least 4. Both are taken verbatim. The rest parameters are everything after the fourth argument. |
| `Router.ParseArgvRoundTrip` | index.js:4 | Building `[runtime, script, method, resource] ++ params` and destructuring it gives back method, resource and params. |
| `Router.ResourceSegments` | index.js:83-97 | The first segment is `products` with exactly one segment iff the resource is `products`. With exactly two segments iff the resource is `products/<id>` where the id has no `/`, and then the second segment is that id. With three or more iff the resource is `products/` followed by text that contains `/`. |
| `Router.Route` | index.js:71-139 | The split-based router's outcome equals the grammar-based reference router's on every method, resource and parameter list. The case lemmas below spell out each outcome. |
| `Router.UsageExactlyWhenArgumentMissing` | index.js:72-81 | The outcome is usage help iff the method or the resource is absent or the empty string. |
| `Router.Run` | index.js:4-81 | A whole invocation with fewer than two arguments after the script name only prints usage help and sends nothing. Otherwise it routes the third and fourth arguments and everything after them. |
| `Router.GetCollection` | index.js:87-90 | `GET products` sends GET `/products` with no body, whatever the parameters. |
| `Router.GetItem` | index.js:91-94 | `GET products/<id>` sends GET `/products/<id>` with the id verbatim. This includes the empty id of `products/`. |
| `Router.InvalidGetExactly` | index.js:95-97 | The outcome is "invalid GET" iff the method is exactly `GET` and the resource has three or more segments under `products`. |
| `Router.MissingDataExactly` | index.js:100-108 | The outcome is "missing data" iff the method is `POST`, the resource is exactly `products`, and one of the first three parameters is absent or empty. |
| `Router.PostCreates` | index.js:111-120 | A complete POST sends POST `/products` with title, price and category taken verbatim from the first three parameters. The description and image are the fixed placeholders, and later parameters are ignored. |
| `Router.ExtraParamsIgnored` | index.js:101 | Once three parameters are given, appending more never changes the outcome. |
| `Router.DeleteExactly` | index.js:125-127 | A DELETE is sent iff the method is exactly `DELETE` and the resource is `products/<id>` with a `/`-free id. It then goes to `/` followed by the resource. |
| `Router.DeleteItem` | index.js:125-127 | `DELETE products/<id>` sends DELETE `/products/<id>` with the id verbatim. |
| `Router.UnrecognisedExactly` | index.js:132-139 | The outcome is "not recognised" iff both arguments are given and none of the GET, POST or DELETE shapes matches. This covers lower-case verbs, other resources, one-segment DELETE and POST to `products/...`. |
| `Router.RequestReflectsCommand` | index.js:87-127 | Whenever a request is sent, the method was exactly the verb's upper-case name and the path is `/` followed by the resource. A body is present iff the verb is POST. |
| `Router.RoutedRequestIsWellFormed` | index.js:87-127 | Every request the router sends is one of: GET of the collection or of one item, complete POST to the collection, DELETE of one item. |
| `Router.RequestRoundTrip` | index.js:87-127 | Every such well-formed request is produced by routing the command line that names it. |
| `Router.ScenarioListAll` | index.js:87-89 | `node index.js GET products` sends GET `/products`. |
| `Router.ScenarioCreate` | index.js:111-120 | `node index.js POST products Phone 199.99 Electronics` sends POST `/products` with that title, price text and category. |
| `Router.ScenarioDelete` | index.js:125-127 | `node index.js DELETE products/5` sends DELETE `/products/5`. |
| `Presenter.Excerpt` | index.js:14 | The shown description is a prefix of the description, of length min(100, length). So short descriptions are shown whole. |
| `Presenter.Entries` | index.js:10-15 | The `forEach` body gives four lines per product in input order, and the i-th block is numbered `first + i`. |
| `Presenter.ListLines` | index.js:8-16 | The listing is one header with the count, then exactly four lines per product in input order. The i-th block holds number i+1 with the title, the price, the category, and the excerpt followed by `...`. |
| `Presenter.NumberedTitleReadsBack` | index.js:11 | The digits an entry's first line starts with read back as the entry's number. |
| `Presenter.ListingNumbering` | index.js:10-11 | In the listing of any product list, the first line of block i starts with digits that read back as i+1, followed by `. ` and the i-th title. |

## Left out

- The HTTPS request helper (index.js:30-68) is left out. It covers network I/O, buffering of the response body, `JSON.parse`, and turning a parse failure into one fixed error. The model stops at the `Request` outcome that would be handed to it.
- `mostrarProducto` (index.js:19-27) is not modelled. It prints the fields of one product in order and has no logic.
- The top-level `try/catch` printing (index.js:141-145) and the exact wording of the usage, "invalid GET", "missing data" and "not recognised" messages are left out. These are console output only, and each becomes a distinct `Outcome` variant. The list presenter's lines are kept word for word.
- Reading `process.argv` is left out. The argument vector is a parameter of `Router.Run` and `Router.ParseArgv`.
- `Router.PostCreates`: the price is sent as the parameter's text, not as `parseFloat(price)`. Floating-point parsing is not modelled, including a price that parses to `NaN`.
- `Presenter.Excerpt`: lengths are counted in Unicode scalar values. JavaScript's `substring` counts UTF-16 code units, so the two differ on descriptions with characters outside the Basic Multilingual Plane.
- `Presenter.ListLines`: product fields are assumed to be the strings the API documents. A product whose description is missing makes the original throw. That error would be caught and printed, and this is not modelled.
- The price is printed as the text the template literal produces for the JSON number. The model does not render numbers.
