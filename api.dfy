/**
 * The catalog client: the transformations the product-API functions apply to a
 * response that has already arrived. A response is modelled as a value (the
 * request failed, or a status and a parsed body); the request URLs are strings
 * built by concatenation, with the query inserted as it is.
 */
module Api {
  import opened Wrappers
  import opened Strings

  /** A parsed JSON value. */
  datatype Json =
    | JNull
    | JBool(b: bool)
    | JNumber(n: real)
    | JString(s: string)
    | JArray(elems: seq<Json>)
    | JObject(fields: map<string, Json>)

  /** What a request can come back with: no response at all, or a status and a body that may not parse. */
  datatype Response = FetchFailed | Received(ok: bool, body: Option<Json>)

  /** The errors the functions throw. */
  datatype ApiError = NetworkError | HttpError(message: string) | InvalidJson | TypeError

  const ApiUrl := "https://dummyjson.com"

  /** JavaScript truthiness of a JSON value. */
  predicate Truthy(j: Json) {
    match j
    case JNull => false
    case JBool(b) => b
    case JNumber(n) => n != 0.0
    case JString(s) => s != ""
    case _ => true
  }

  /** The request came back `ok` and its body parsed. */
  predicate Arrived(resp: Response) {
    resp.Received? && resp.ok && resp.body.Some?
  }

  /**
   * `data.key` as an own-property lookup of a key no prototype defines (such as
   * `products`): throws on null, `undefined` when the key is missing or the value
   * is not an object. Prototype properties (`"abc".length`, `toString`) are not modelled.
   */
  function Property(data: Json, key: string): (r: Result<Option<Json>, ApiError>)
    ensures r.Failure? <==> data.JNull?
    ensures data.JNull? ==> r == Failure(TypeError)
    ensures data.JObject? && key in data.fields ==> r == Success(Some(data.fields[key]))
    ensures !data.JNull? && !(data.JObject? && key in data.fields) ==> r == Success(None)
  {
    match data
    case JNull => Failure(TypeError)
    case JObject(m) => Success(if key in m then Some(m[key]) else None)
    case _ => Success(None)
  }

  /** The fetch, the `ok` check with its message, and `response.json()`. */
  function Body(resp: Response, failMessage: string): (r: Result<Json, ApiError>)
    ensures r.Success? <==> Arrived(resp)
    ensures resp.FetchFailed? ==> r == Failure(NetworkError)
    ensures resp.Received? && !resp.ok ==> r == Failure(HttpError(failMessage))
    ensures resp.Received? && resp.ok && resp.body.None? ==> r == Failure(InvalidJson)
    ensures Arrived(resp) ==> r == Success(resp.body.value)
  {
    match resp
    case FetchFailed => Failure(NetworkError)
    case Received(ok, body) =>
      if !ok then Failure(HttpError(failMessage))
      else match body
        case None => Failure(InvalidJson)
        case Some(j) => Success(j)
  }

  /** `data.products`, with any error along the way. */
  function ProductsOf(resp: Response, failMessage: string): (r: Result<Option<Json>, ApiError>)
    ensures r.Success? <==> Arrived(resp) && !resp.body.value.JNull?
    ensures resp.FetchFailed? ==> r == Failure(NetworkError)
    ensures resp.Received? && !resp.ok ==> r == Failure(HttpError(failMessage))
    ensures resp.Received? && resp.ok && resp.body.None? ==> r == Failure(InvalidJson)
    ensures Arrived(resp) && resp.body.value.JNull? ==> r == Failure(TypeError)
    ensures (Arrived(resp) && resp.body.value.JObject? && "products" in resp.body.value.fields) ==>
      r == Success(Some(resp.body.value.fields["products"]))
    ensures (Arrived(resp) && !resp.body.value.JNull?
             && !(resp.body.value.JObject? && "products" in resp.body.value.fields)) ==>
      r == Success(None)
  {
    match Body(resp, failMessage)
    case Failure(e) => Failure(e)
    case Success(data) => Property(data, "products")
  }

  // ---------------------------------------------------------------------------
  // Request URLs
  // ---------------------------------------------------------------------------

  function ProductsUrl(): string { ApiUrl + "/products" }

  function ProductUrl(id: int): string { ApiUrl + "/products/" + IntToString(id) }

  function CategoryUrl(category: string): string { ApiUrl + "/products/category/" + ToLower(category) }

  function CategoriesUrl(): string { ApiUrl + "/products/categories" }

  function SearchUrl(query: string): string { ApiUrl + "/products/search?q=" + query }

  function SuggestionsUrl(query: string): string { ApiUrl + "/products/search?q=" + query + "&limit=5" }

  /** The product request path ends in the decimal form of the id. */
  lemma ProductUrlNamesId(id: int)
    ensures var tail := ProductUrl(id)[|ApiUrl + "/products/"|..];
      && ProductUrl(id) == ApiUrl + "/products/" + tail
      && IsDecimal(tail) && DecimalValue(tail) == id
  {
    assert ProductUrl(id)[|ApiUrl + "/products/"|..] == IntToString(id);
  }

  /**
   * The suggestions request is the search request with `&limit=5` appended; since
   * the query goes in unencoded, it is also the search request for the query
   * with `&limit=5` appended to it.
   */
  lemma SuggestionsUrlExtendsSearch(query: string)
    ensures SuggestionsUrl(query) == SearchUrl(query) + "&limit=5"
    ensures SuggestionsUrl(query) == SearchUrl(query + "&limit=5")
  {
  }

  /** The category request path carries the category in lower case. */
  lemma CategoryUrlIsLowerCase(category: string)
    ensures var u := CategoryUrl(category);
      && u == ApiUrl + "/products/category/" + u[|ApiUrl + "/products/category/"|..]
      && forall i | |ApiUrl + "/products/category/"| <= i < |u| :: !('A' <= u[i] <= 'Z')
  {
  }

  // ---------------------------------------------------------------------------
  // The client functions
  // ---------------------------------------------------------------------------

  /** A client function's run: the URL it requested and what it returned or threw. */
  datatype Call<T> = Call(url: string, result: T)

  /** fetchProducts: `data.products`, which may be undefined; every failure is rethrown. */
  function FetchProducts(resp: Response): (r: Call<Result<Option<Json>, ApiError>>)
    ensures r.url == ApiUrl + "/products"
    ensures r.result.Success? <==> Arrived(resp) && !resp.body.value.JNull?
    ensures resp.FetchFailed? ==> r.result == Failure(NetworkError)
    ensures resp.Received? && !resp.ok ==> r.result == Failure(HttpError("Failed to fetch products"))
    ensures resp.Received? && resp.ok && resp.body.None? ==> r.result == Failure(InvalidJson)
    ensures resp == Received(true, Some(JNull)) ==> r.result == Failure(TypeError)
    ensures Arrived(resp) && resp.body.value.JObject? && "products" in resp.body.value.fields ==>
      r.result == Success(Some(resp.body.value.fields["products"]))
    ensures (Arrived(resp) && !resp.body.value.JNull?
             && !(resp.body.value.JObject? && "products" in resp.body.value.fields)) ==>
      r.result == Success(None)
  {
    Call(ProductsUrl(), ProductsOf(resp, "Failed to fetch products"))
  }

  /** fetchProduct: the parsed body, whatever it is; every failure is rethrown. */
  function FetchProduct(id: int, resp: Response): (r: Call<Result<Json, ApiError>>)
    ensures r.url == ProductUrl(id)
    ensures r.result.Success? <==> Arrived(resp)
    ensures resp.FetchFailed? ==> r.result == Failure(NetworkError)
    ensures resp.Received? && !resp.ok ==> r.result == Failure(HttpError("Failed to fetch product"))
    ensures resp.Received? && resp.ok && resp.body.None? ==> r.result == Failure(InvalidJson)
    ensures Arrived(resp) ==> r.result == Success(resp.body.value)
  {
    Call(ProductUrl(id), Body(resp, "Failed to fetch product"))
  }

  /**
   * fetchProductsByCategory: the `products` array, or `[]` when it is missing,
   * falsy or not an array; request failures are rethrown.
   */
  function FetchProductsByCategory(category: string, resp: Response): (r: Call<Result<seq<Json>, ApiError>>)
    ensures r.url == CategoryUrl(category)
    ensures r.result.Success? <==> Arrived(resp) && !resp.body.value.JNull?
    ensures resp.FetchFailed? ==> r.result == Failure(NetworkError)
    ensures resp.Received? && !resp.ok ==>
      r.result == Failure(HttpError("Failed to fetch products for category: " + category))
    ensures resp.Received? && resp.ok && resp.body.None? ==> r.result == Failure(InvalidJson)
    ensures resp == Received(true, Some(JNull)) ==> r.result == Failure(TypeError)
    ensures (Arrived(resp) && resp.body.value.JObject? && "products" in resp.body.value.fields
             && resp.body.value.fields["products"].JArray?) ==>
      r.result == Success(resp.body.value.fields["products"].elems)
    ensures (Arrived(resp) && !resp.body.value.JNull?
             && !(resp.body.value.JObject? && "products" in resp.body.value.fields
                  && resp.body.value.fields["products"].JArray?)) ==>
      r.result == Success([])
  {
    var result :=
      match ProductsOf(resp, "Failed to fetch products for category: " + category)
      case Failure(e) => Failure(e)
      case Success(products) =>
        if products.Some? && products.value.JArray? then Success(products.value.elems) else Success([]);
    Call(CategoryUrl(category), result)
  }

  /** `category.name || category.value || category.id || ""` for an object; the string itself for a string; "" otherwise. */
  function CategoryName(c: Json): (r: Json)
    ensures c.JString? ==> r == c
    ensures !c.JString? && !c.JObject? ==> r == JString("")
    ensures c.JObject? && "name" in c.fields && Truthy(c.fields["name"]) ==> r == c.fields["name"]
    ensures (c.JObject? && !("name" in c.fields && Truthy(c.fields["name"]))
             && "value" in c.fields && Truthy(c.fields["value"])) ==> r == c.fields["value"]
    ensures (c.JObject? && !("name" in c.fields && Truthy(c.fields["name"]))
             && !("value" in c.fields && Truthy(c.fields["value"]))
             && "id" in c.fields && Truthy(c.fields["id"])) ==> r == c.fields["id"]
    ensures c.JObject? ==>
      (r == JString("") <==> forall k | k in {"name", "value", "id"} && k in c.fields :: !Truthy(c.fields[k]))
    ensures Truthy(r) || r == JString("")
  {
    match c
    case JString(_) => c
    case JObject(m) =>
      if "name" in m && Truthy(m["name"]) then m["name"]
      else if "value" in m && Truthy(m["value"]) then m["value"]
      else if "id" in m && Truthy(m["id"]) then m["id"]
      else JString("")
    case _ => JString("")
  }

  /** The `map(CategoryName).filter(Boolean)` chain. */
  function CategoryNames(cs: seq<Json>): (r: seq<Json>)
    ensures |r| <= |cs|
    ensures forall i | 0 <= i < |r| :: Truthy(r[i])
    ensures forall i | 0 <= i < |cs| && cs[i].JString? && cs[i].s != "" :: cs[i] in r
  {
    if cs == [] then []
    else
      var n := CategoryName(cs[0]);
      (if Truthy(n) then [n] else []) + CategoryNames(cs[1..])
  }

  /** One element passes through the chain as its name, or not at all when the name is falsy. */
  lemma CategoryNamesSingle(c: Json)
    ensures CategoryNames([c]) == if Truthy(CategoryName(c)) then [CategoryName(c)] else []
  {
    assert [c][1..] == [];
  }

  /**
   * Exactly the truthy names survive: every survivor is the name of some element,
   * and every element whose name is truthy has it among the survivors.
   */
  lemma {:induction false} CategoryNamesExact(cs: seq<Json>)
    ensures forall i | 0 <= i < |CategoryNames(cs)| ::
      exists j | 0 <= j < |cs| :: CategoryNames(cs)[i] == CategoryName(cs[j])
    ensures forall j | 0 <= j < |cs| && Truthy(CategoryName(cs[j])) :: CategoryName(cs[j]) in CategoryNames(cs)
  {
    if cs != [] {
      CategoryNamesExact(cs[1..]);
      var n := CategoryName(cs[0]);
      var head := if Truthy(n) then [n] else [];
      var rest := CategoryNames(cs[1..]);
      var r := CategoryNames(cs);
      assert r == head + rest;
      forall i | 0 <= i < |r|
        ensures exists j | 0 <= j < |cs| :: r[i] == CategoryName(cs[j])
      {
        if i < |head| {
          assert r[i] == CategoryName(cs[0]);
        } else {
          var j :| 0 <= j < |cs[1..]| && rest[i - |head|] == CategoryName(cs[1..][j]);
          assert r[i] == CategoryName(cs[j + 1]);
        }
      }
      forall j | 0 <= j < |cs| && Truthy(CategoryName(cs[j]))
        ensures CategoryName(cs[j]) in r
      {
        if j == 0 {
          assert r[0] == n;
        } else {
          assert cs[j] == cs[1..][j - 1];
          assert CategoryName(cs[j]) in rest;
        }
      }
    } else {
      assert CategoryNames(cs) == [];
    }
  }

  /** fetchCategories: the names of an array response, `[]` for any other response or any failure. */
  function FetchCategories(resp: Response): (r: Call<seq<Json>>)
    ensures r.url == ApiUrl + "/products/categories"
    ensures forall i | 0 <= i < |r.result| :: Truthy(r.result[i])
    ensures Arrived(resp) && resp.body.value.JArray? ==> r.result == CategoryNames(resp.body.value.elems)
    ensures !(Arrived(resp) && resp.body.value.JArray?) ==> r.result == []
  {
    var names :=
      match Body(resp, "Failed to fetch categories")
      case Failure(_) => []
      case Success(data) => if data.JArray? then CategoryNames(data.elems) else [];
    Call(CategoriesUrl(), names)
  }

  /** searchProducts: `data.products` for the raw query; every failure is rethrown. */
  function SearchProducts(query: string, resp: Response): (r: Call<Result<Option<Json>, ApiError>>)
    ensures r.url == SearchUrl(query)
    ensures r.result.Success? <==> Arrived(resp) && !resp.body.value.JNull?
    ensures resp.FetchFailed? ==> r.result == Failure(NetworkError)
    ensures resp.Received? && !resp.ok ==> r.result == Failure(HttpError("Failed to search products"))
    ensures resp.Received? && resp.ok && resp.body.None? ==> r.result == Failure(InvalidJson)
    ensures resp == Received(true, Some(JNull)) ==> r.result == Failure(TypeError)
    ensures Arrived(resp) && resp.body.value.JObject? && "products" in resp.body.value.fields ==>
      r.result == Success(Some(resp.body.value.fields["products"]))
    ensures (Arrived(resp) && !resp.body.value.JNull?
             && !(resp.body.value.JObject? && "products" in resp.body.value.fields)) ==>
      r.result == Success(None)
  {
    Call(SearchUrl(query), ProductsOf(resp, "Failed to search products"))
  }

  /** What getSearchSuggestions did: the URL it requested, if any, and what it returned. */
  datatype Suggestions = Suggestions(request: Option<string>, products: Option<Json>)

  /**
   * getSearchSuggestions: a blank query returns `[]` without a request; otherwise
   * the suggestions URL is requested and any failure returns `[]`.
   */
  function GetSearchSuggestions(query: string, resp: Response): (r: Suggestions)
    ensures r.request.None? <==> Trim(query) == ""
    ensures r.request.Some? ==> r.request.value == SuggestionsUrl(query)
    ensures Trim(query) == "" ==> r.products == Some(JArray([]))
    ensures !Arrived(resp) || resp.body.value.JNull? ==> r.products == Some(JArray([]))
    ensures (Trim(query) != "" && Arrived(resp) && resp.body.value.JObject?
             && "products" in resp.body.value.fields) ==>
      r.products == Some(resp.body.value.fields["products"])
    ensures (Trim(query) != "" && Arrived(resp) && !resp.body.value.JNull?
             && !(resp.body.value.JObject? && "products" in resp.body.value.fields)) ==>
      r.products.None?
  {
    if Trim(query) == "" then Suggestions(None, Some(JArray([])))
    else
      match ProductsOf(resp, "Failed to get search suggestions")
      case Failure(_) => Suggestions(Some(SuggestionsUrl(query)), Some(JArray([])))
      case Success(products) => Suggestions(Some(SuggestionsUrl(query)), products)
  }

  /** The blank-query guard fires exactly on queries made only of white space. */
  lemma SuggestionsSkipBlank(query: string, resp: Response)
    ensures GetSearchSuggestions(query, resp).request.None?
        <==> forall i | 0 <= i < |query| :: IsWhitespace(query[i])
  {
    TrimEmptyIffBlank(query);
  }

  /** The name chain keeps its survivors in order: it distributes over concatenation. */
  lemma {:induction false} CategoryNamesAppend(a: seq<Json>, b: seq<Json>)
    ensures CategoryNames(a + b) == CategoryNames(a) + CategoryNames(b)
  {
    if a == [] {
      assert a + b == b;
    } else {
      assert (a + b)[0] == a[0] && (a + b)[1..] == a[1..] + b;
      CategoryNamesAppend(a[1..], b);
    }
  }

  /** An array of plain non-empty strings is returned as it is. */
  lemma {:induction false} StringNamesVerbatim(cs: seq<Json>)
    requires forall i | 0 <= i < |cs| :: cs[i].JString? && cs[i].s != ""
    ensures CategoryNames(cs) == cs
  {
    if cs != [] {
      StringNamesVerbatim(cs[1..]);
    }
  }

  /** A mixed response: strings, an object with a name, an empty string and a number. */
  lemma MixedCategories()
    ensures FetchCategories(Received(true, Some(JArray([
      JString("beauty"), JObject(map["name" := JString("Groceries"), "slug" := JString("groceries")]),
      JString(""), JNumber(3.0), JObject(map["id" := JNull])])))).result
      == [JString("beauty"), JString("Groceries")]
  {
    var cs := [JString("beauty"), JObject(map["name" := JString("Groceries"), "slug" := JString("groceries")]),
      JString(""), JNumber(3.0), JObject(map["id" := JNull])];
    assert cs[1..][1..][1..][1..][1..] == [];
  }
}
