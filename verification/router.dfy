/**
  The command router of the product-catalog client: from the action, the
  resource and the extra parameters given on the command line it decides
  which single outcome the invocation has — a usage message, the "invalid
  GET" message, the "missing data" message, the "unrecognised command"
  message, or exactly one HTTPS request (verb, path, optional JSON body).
 */
module Router {
  import opened Js

  /** The HTTP verbs the client ever sends. */
  datatype Verb = Get | Post | Delete

  /** The verb as written on the command line and on the wire. */
  function VerbName(v: Verb): string {
    match v
    case Get => "GET"
    case Post => "POST"
    case Delete => "DELETE"
  }

  /** The one collection the client knows about. */
  const Collection: string := "products"

  /** Fixed fields of every product the client creates. */
  const NewDescription: string := "Producto agregado desde script local."
  const NewImage: string := "https://via.placeholder.com/150"

  /** The JSON body of a POST. The price is kept as the text given on the
      command line: its conversion to a floating-point number is not
      modelled. */
  datatype NewProduct = NewProduct(
    title: string,
    price: string,
    category: string,
    description: string,
    image: string)

  /** What one invocation does. */
  datatype Outcome =
    | Usage                 // action or resource missing: usage help
    | InvalidGet            // GET on products/<a>/<b>...: "invalid GET"
    | MissingData           // POST products without title, price or category
    | Unrecognised          // any other command: "command not recognised"
    | Request(verb: Verb, path: string, body: Option<NewProduct>)

  /** The command line after the interpreter and script name: action,
      resource and the remaining parameters, each possibly absent. */
  datatype Command = Command(action: Option<string>, resource: Option<string>, params: seq<string>)

  /* ---------------------------------------------------------------------
     argument destructuring
     --------------------------------------------------------------------- */

  /** `const [,, action, resource, ...params] = argv`. */
  function ParseArgv(argv: seq<string>): (c: Command)
    ensures c.action.Some? <==> |argv| >= 3
    ensures c.resource.Some? <==> |argv| >= 4
    ensures c.action.Some? ==> c.action.value == argv[2]
    ensures c.resource.Some? ==> c.resource.value == argv[3]
    ensures |argv| >= 4 ==> argv == argv[..4] + c.params
    ensures |argv| < 4 ==> c.params == []
  {
    Command(At(argv, 2), At(argv, 3), if |argv| > 4 then argv[4..] else [])
  }

  /** Building an argument vector and destructuring it gives back the parts. */
  lemma ParseArgvRoundTrip(runtime: string, script: string, action: string, resource: string, params: seq<string>)
    ensures ParseArgv([runtime, script, action, resource] + params) == Command(Some(action), Some(resource), params)
  {
    var argv := [runtime, script, action, resource] + params;
    if |argv| > 4 {
      assert argv[4..] == params;
    }
  }

  /* ---------------------------------------------------------------------
     the router
     --------------------------------------------------------------------- */

  /** The body sent when creating a product from the three parameters. */
  function NewProductFrom(title: string, price: string, category: string): NewProduct {
    NewProduct(title, price, category, NewDescription, NewImage)
  }

  /** The dispatch of the client's main routine. The resource is split on
      '/'; GET and DELETE look at its segments, POST at the whole string.
      Its outcome is the one the resource grammar below prescribes. */
  function Route(action: Option<string>, resource: Option<string>, params: seq<string>): (r: Outcome)
    ensures r == Expected(action, resource, params)
  {
    if !Truthy(action) || !Truthy(resource) then Usage
    else
      var m := action.value;
      var res := resource.value;
      var parts := Split(res, '/');
      ResourceSegments(res);
      if m == "GET" && parts[0] == Collection then
        if |parts| == 1 then Request(Get, "/" + Collection, None)
        else if |parts| == 2 then
          assert "/" + Collection + "/" + parts[1] == "/" + (ItemPrefix + parts[1]);
          Request(Get, "/" + Collection + "/" + parts[1], None)
        else InvalidGet
      else if m == "POST" && res == Collection then
        var title, price, category := At(params, 0), At(params, 1), At(params, 2);
        if !Truthy(title) || !Truthy(price) || !Truthy(category) then MissingData
        else Request(Post, "/" + Collection, Some(NewProductFrom(title.value, price.value, category.value)))
      else if m == "DELETE" && parts[0] == Collection && |parts| == 2 then
        assert "/" + Collection + "/" + parts[1] == "/" + (ItemPrefix + parts[1]);
        Request(Delete, "/" + Collection + "/" + parts[1], None)
      else Unrecognised
  }

  /** One whole invocation: destructure the argument vector, then route.
      Fewer than two arguments after the script name only print usage help. */
  function Run(argv: seq<string>): (r: Outcome)
    ensures |argv| < 4 ==> r == Usage
    ensures |argv| >= 4 ==> r == Route(Some(argv[2]), Some(argv[3]), argv[4..])
  {
    var c := ParseArgv(argv);
    Route(c.action, c.resource, c.params)
  }

  /* ---------------------------------------------------------------------
     the resource grammar, stated without split
     --------------------------------------------------------------------- */

  /** "products/" — the prefix of every single-item resource. */
  const ItemPrefix: string := Collection + "/"

  predicate HasItemPrefix(res: string) {
    |res| >= |ItemPrefix| && res[..|ItemPrefix|] == ItemPrefix
  }

  /** `products/<id>` where the id (possibly empty) has no further '/'. */
  predicate IsItem(res: string) {
    HasItemPrefix(res) && '/' !in res[|ItemPrefix|..]
  }

  /** `products/<a>/<b>...`: three or more segments under products. */
  predicate IsNested(res: string) {
    HasItemPrefix(res) && '/' in res[|ItemPrefix|..]
  }

  /** Reference router over the grammar above, written without splitting. */
  function Expected(action: Option<string>, resource: Option<string>, params: seq<string>): Outcome {
    if !Truthy(action) || !Truthy(resource) then Usage
    else
      var m := action.value;
      var res := resource.value;
      if m == "GET" && res == Collection then Request(Get, "/" + res, None)
      else if m == "GET" && IsItem(res) then Request(Get, "/" + res, None)
      else if m == "GET" && IsNested(res) then InvalidGet
      else if m == "POST" && res == Collection then
        if |params| < 3 || params[0] == "" || params[1] == "" || params[2] == "" then MissingData
        else Request(Post, "/" + res, Some(NewProductFrom(params[0], params[1], params[2])))
      else if m == "DELETE" && IsItem(res) then Request(Delete, "/" + res, None)
      else Unrecognised
  }

  /** After the "products/" prefix the segments are "products" followed by
      the segments of the rest. */
  lemma {:induction false} SegmentsUnderCollection(res: string)
    requires HasItemPrefix(res)
    ensures Split(res, '/') == [Collection] + Split(res[|ItemPrefix|..], '/')
  {
    var t := res[|ItemPrefix|..];
    assert res == Collection + ['/'] + t;
    SplitAfterSegment(Collection, t, '/');
  }

  /** Without the "products/" prefix the first segment is "products" only
      when the whole resource is. */
  lemma {:induction false} SegmentsOutsideCollection(res: string)
    requires !HasItemPrefix(res)
    ensures Split(res, '/')[0] == Collection ==> res == Collection && |Split(res, '/')| == 1
  {
    var parts := Split(res, '/');
    assert res == Join(parts, '/');
  }

  /** How the segments of a resource relate to the grammar. */
  lemma {:induction false} ResourceSegments(res: string)
    ensures (Split(res, '/')[0] == Collection && |Split(res, '/')| == 1) <==> res == Collection
    ensures (Split(res, '/')[0] == Collection && |Split(res, '/')| == 2) <==> IsItem(res)
    ensures (Split(res, '/')[0] == Collection && |Split(res, '/')| >= 3) <==> IsNested(res)
    ensures IsItem(res) ==> ItemPrefix + Split(res, '/')[1] == res
  {
    if HasItemPrefix(res) {
      var t := res[|ItemPrefix|..];
      SegmentsUnderCollection(res);
      if '/' !in t {
        SplitWithoutSeparator(t, '/');
      } else {
        assert Join(Split(t, '/'), '/') == t;
      }
    } else {
      SegmentsOutsideCollection(res);
      if res == Collection {
        SplitWithoutSeparator(res, '/');
      }
    }
  }

  /* ---------------------------------------------------------------------
     properties of the router, case by case
     --------------------------------------------------------------------- */

  /** Usage help is printed exactly when the action or the resource is
      missing or empty. */
  lemma UsageExactlyWhenArgumentMissing(action: Option<string>, resource: Option<string>, params: seq<string>)
    ensures Route(action, resource, params) == Usage <==> !Truthy(action) || !Truthy(resource)
  {
  }

  /** GET products lists the whole collection, whatever the parameters. */
  lemma GetCollection(action: Option<string>, resource: Option<string>, params: seq<string>)
    requires action == Some("GET") && resource == Some(Collection)
    ensures Route(action, resource, params) == Request(Get, "/products", None)
  {
  }

  /** GET products/<id> fetches that id verbatim, the empty id included. */
  lemma GetItem(id: string, params: seq<string>)
    requires '/' !in id
    ensures Route(Some("GET"), Some(ItemPrefix + id), params) == Request(Get, "/products/" + id, None)
  {
    var res := ItemPrefix + id;
    assert res[..|ItemPrefix|] == ItemPrefix && res[|ItemPrefix|..] == id;
  }

  /** GET with three or more segments under products is the "invalid GET"
      message, and that message arises in no other way. */
  lemma InvalidGetExactly(action: Option<string>, resource: Option<string>, params: seq<string>)
    ensures Route(action, resource, params) == InvalidGet
      <==> action == Some("GET") && resource.Some? && IsNested(resource.value)
  {
  }

  /** POST products without a non-empty title, price and category is the
      "missing data" message, and that message arises in no other way. */
  lemma MissingDataExactly(action: Option<string>, resource: Option<string>, params: seq<string>)
    ensures Route(action, resource, params) == MissingData
      <==> action == Some("POST") && resource == Some(Collection)
           && (!Truthy(At(params, 0)) || !Truthy(At(params, 1)) || !Truthy(At(params, 2)))
  {
  }

  /** A complete POST products sends the three parameters verbatim with the
      fixed description and image. */
  lemma PostCreates(title: string, price: string, category: string, extra: seq<string>)
    requires title != "" && price != "" && category != ""
    ensures Route(Some("POST"), Some(Collection), [title, price, category] + extra)
      == Request(Post, "/products",
                 Some(NewProduct(title, price, category,
                                 "Producto agregado desde script local.",
                                 "https://via.placeholder.com/150")))
  {
  }

  /** Parameters after the third never change the outcome. */
  lemma ExtraParamsIgnored(action: Option<string>, resource: Option<string>, params: seq<string>, extra: seq<string>)
    requires |params| >= 3
    ensures Route(action, resource, params + extra) == Route(action, resource, params)
  {
  }

  /** A DELETE is sent exactly for DELETE products/<id>, to that id. */
  lemma DeleteExactly(action: Option<string>, resource: Option<string>, params: seq<string>)
    ensures (Route(action, resource, params).Request? && Route(action, resource, params).verb == Delete)
      <==> action == Some("DELETE") && resource.Some? && IsItem(resource.value)
    ensures action == Some("DELETE") && resource.Some? && IsItem(resource.value)
      ==> Route(action, resource, params) == Request(Delete, "/" + resource.value, None)
  {
  }

  /** DELETE products/<id> deletes that id verbatim, the empty id included. */
  lemma DeleteItem(id: string, params: seq<string>)
    requires '/' !in id
    ensures Route(Some("DELETE"), Some(ItemPrefix + id), params) == Request(Delete, "/products/" + id, None)
  {
    var res := ItemPrefix + id;
    assert res[..|ItemPrefix|] == ItemPrefix && res[|ItemPrefix|..] == id;
    DeleteExactly(Some("DELETE"), Some(res), params);
  }

  /** Any other command is unrecognised: lower-case verbs, other resources,
      a one-segment DELETE, a POST to anything but exactly products. */
  lemma UnrecognisedExactly(action: Option<string>, resource: Option<string>, params: seq<string>)
    ensures Route(action, resource, params) == Unrecognised
      <==> Truthy(action) && Truthy(resource)
           && !(action.value == "GET" && (resource.value == Collection || HasItemPrefix(resource.value)))
           && !(action.value == "POST" && resource.value == Collection)
           && !(action.value == "DELETE" && IsItem(resource.value))
  {
  }

  /* ---------------------------------------------------------------------
     what a request says about the command that produced it
     --------------------------------------------------------------------- */

  /** A request is sent only for the exact, case-sensitive verb name, and its
      path is always the resource with a leading '/'. */
  lemma RequestReflectsCommand(action: Option<string>, resource: Option<string>, params: seq<string>)
    requires Route(action, resource, params).Request?
    ensures action == Some(VerbName(Route(action, resource, params).verb))
    ensures resource.Some? && Route(action, resource, params).path == "/" + resource.value
    ensures Route(action, resource, params).body.Some? <==> Route(action, resource, params).verb == Post
  {
  }

  /** The requests the client can send: GET of the collection or of one
      item, POST of a complete new product to the collection, DELETE of one
      item. */
  predicate WellFormedRequest(o: Outcome) {
    o.Request? &&
    match o.verb
    case Get => o.body.None? && (o.path == "/" + Collection || (|o.path| >= 1 && o.path[0] == '/' && IsItem(o.path[1..])))
    case Delete => o.body.None? && |o.path| >= 1 && o.path[0] == '/' && IsItem(o.path[1..])
    case Post =>
      o.path == "/" + Collection && o.body.Some?
      && o.body.value.title != "" && o.body.value.price != "" && o.body.value.category != ""
      && o.body.value.description == NewDescription && o.body.value.image == NewImage
  }

  /** The command line that asks for a given request. */
  function CommandFor(o: Outcome): Command
    requires WellFormedRequest(o)
  {
    var params := if o.body.Some? then [o.body.value.title, o.body.value.price, o.body.value.category] else [];
    Command(Some(VerbName(o.verb)), Some(o.path[1..]), params)
  }

  /** Every request the router sends is well formed, and every well-formed
      request is sent by the command that names it. */
  lemma RequestRoundTrip(o: Outcome)
    requires WellFormedRequest(o)
    ensures Route(CommandFor(o).action, CommandFor(o).resource, CommandFor(o).params) == o
  {
    var c := CommandFor(o);
    if o.verb == Get && o.path == "/" + Collection {
      assert c.resource.value == Collection;
    }
  }

  lemma RoutedRequestIsWellFormed(action: Option<string>, resource: Option<string>, params: seq<string>)
    requires Route(action, resource, params).Request?
    ensures WellFormedRequest(Route(action, resource, params))
  {
    var res := resource.value;
    assert ("/" + res)[1..] == res;
  }

  /* ---------------------------------------------------------------------
     the documented invocations
     --------------------------------------------------------------------- */

  lemma ScenarioListAll()
    ensures Run(["node", "index.js", "GET", "products"]) == Request(Get, "/products", None)
  {
    ParseArgvRoundTrip("node", "index.js", "GET", "products", []);
    assert ["node", "index.js", "GET", "products"] + [] == ["node", "index.js", "GET", "products"];
    GetCollection(Some("GET"), Some("products"), []);
  }

  lemma ScenarioCreate()
    ensures Run(["node", "index.js", "POST", "products", "Phone", "199.99", "Electronics"])
      == Request(Post, "/products", Some(NewProductFrom("Phone", "199.99", "Electronics")))
  {
    ParseArgvRoundTrip("node", "index.js", "POST", "products", ["Phone", "199.99", "Electronics"]);
    PostCreates("Phone", "199.99", "Electronics", []);
    assert ["Phone", "199.99", "Electronics"] + [] == ["Phone", "199.99", "Electronics"];
  }

  lemma ScenarioDelete()
    ensures Run(["node", "index.js", "DELETE", "products/5"]) == Request(Delete, "/products/5", None)
  {
    ParseArgvRoundTrip("node", "index.js", "DELETE", "products/5", []);
    assert ["node", "index.js", "DELETE", "products/5"] + [] == ["node", "index.js", "DELETE", "products/5"];
    assert ItemPrefix + "5" == "products/5";
    DeleteItem("5", []);
  }
}
