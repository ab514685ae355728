/**
 * `CompaniesResource`: the companies endpoint. A filter on `name` alone goes
 * through the server's `q=` search; every other filter set fetches all
 * companies. Either way the exact-match filter then runs on the client side.
 */
module Companies {
  import opened Wrappers
  import opened Text
  import opened Json
  import opened Exceptions
  import opened Client
  import opened Base

  const COMPANIES_PATH := "/companies"

  /** The filters are exactly one `name`, so the search endpoint is used. */
  predicate NameOnly(kwargs: map<string, Json>)
  {
    |kwargs| == 1 && "name" in kwargs
  }

  /** The `q=` search for the given name. */
  function SearchRequest(path: string, kwargs: map<string, Json>): Request
    requires "name" in kwargs
  {
    Request(GET, path, Some(map["q" := kwargs["name"]]), Null, Null, Null)
  }

  /** `{"name": name, "parent_id": parent_id, **kwargs}`: the extra fields are added, and win on a clash. */
  function CreateBody(name: string, parentId: int, kwargs: map<string, Json>): (r: map<string, Json>)
    ensures r.Keys == {"name", "parent_id"} + kwargs.Keys
    ensures forall k :: k in kwargs ==> r[k] == kwargs[k]
    ensures "name" !in kwargs ==> r["name"] == Str(name)
    ensures "parent_id" !in kwargs ==> r["parent_id"] == Int(parentId)
  {
    map["name" := Str(name), "parent_id" := Int(parentId)] + kwargs
  }

  /** The `data` of a search response, as the name-only paths read it. */
  function SearchData(resp: map<string, Json>): Json
  {
    Get(resp, "data", List([]))
  }

  /** `filter(name=...)` on the search response. */
  function SearchFiltered(o: Result<Json, Error>, kwargs: map<string, Json>): Result<seq<Json>, Error>
  {
    match o
    case Failure(e) => Failure(e)
    case Success(resp) =>
      if !Truthy(resp) then Success([])
      else if !resp.Object? then Failure(NoGet(resp))
      else
        match Iterate(SearchData(resp.fields))
        case None => Failure(NotIterable(SearchData(resp.fields)))
        case Some(items) => ClientSideFilter(items, kwargs)
  }

  /** `filter(**kwargs)` on what `all()` returned. */
  function AllFiltered(res: Result<seq<Json>, Error>, kwargs: map<string, Json>): Result<seq<Json>, Error>
  {
    match res
    case Failure(e) => Failure(e)
    case Success(items) => ClientSideFilter(items, kwargs)
  }

  /**
   * The exact-match step of `_get_by_filters`: no match is "not found" (and
   * reports how many partial matches the server sent), several are ambiguous,
   * one is returned.
   */
  function ExactMatch(items: seq<Json>, kwargs: map<string, Json>): Result<Json, Error>
  {
    var criteria := Repr(Object(kwargs));
    match ClientSideFilter(items, kwargs)
    case Failure(e) => Failure(e)
    case Success(matches) =>
      if |matches| == 0 then
        Failure(NotFoundError(Str("No companies found with exact match for " + criteria +
                                  ". API returned " + NatToString(|items|) + " partial matches.")))
      else if |matches| > 1 then
        Failure(ValueError("Multiple companies found (" + NatToString(|matches|) + ") with exact match for " +
                           criteria + ". Use filter() to get all results or be more specific."))
      else Success(matches[0])
  }

  /** `_get_by_filters(name=...)` on the search response. */
  function SearchLookup(o: Result<Json, Error>, kwargs: map<string, Json>): Result<Json, Error>
  {
    match o
    case Failure(e) => Failure(e)
    case Success(resp) =>
      if !Truthy(resp) then Failure(NotFoundError(Str("No companies found matching the criteria")))
      else if !resp.Object? then Failure(NoGet(resp))
      else
        match Iterate(SearchData(resp.fields))
        case None => Failure(NotIterable(SearchData(resp.fields)))
        case Some(items) => ExactMatch(items, kwargs)
  }

  /** `_get_by_filters(**kwargs)` on what `all()` returned. */
  function AllLookup(res: Result<seq<Json>, Error>, kwargs: map<string, Json>): Result<Json, Error>
  {
    match res
    case Failure(e) => Failure(e)
    case Success(items) => ExactMatch(items, kwargs)
  }

  /**
   * The company found is a matching dict among the items, and the only one the
   * filter kept; "not found" means the filter kept nothing and "multiple"
   * means it kept more than one.
   */
  lemma ExactMatchSpec(items: seq<Json>, kwargs: map<string, Json>)
    requires kwargs != map[]
    ensures var r := ExactMatch(items, kwargs);
      (r.Success? ==> r.value in items && r.value.Object? && Matches(r.value.fields, kwargs) &&
                      ClientSideFilter(items, kwargs) == Success([r.value])) &&
      (r.Failure? && r.error.NotFoundError? ==> ClientSideFilter(items, kwargs) == Success([])) &&
      (r.Failure? && r.error.ValueError? ==> ClientSideFilter(items, kwargs).Success? &&
                                             |ClientSideFilter(items, kwargs).value| > 1) &&
      (r.Failure? && r.error.AttributeError? <==> exists i :: 0 <= i < |items| && !items[i].Object?)
  {
    KeptSpec(items, kwargs);
    var k := Kept(items, kwargs);
    if k.Success? && |k.value| == 1 {
      assert k.value[0] in k.value;
      assert k.value == [k.value[0]];
    }
  }

  /** A dict item that matches and is the only item sent back is found. */
  lemma SingleMatchFound(item: map<string, Json>, kwargs: map<string, Json>)
    requires kwargs != map[] && Matches(item, kwargs)
    ensures ExactMatch([Object(item)], kwargs) == Success(Object(item))
  {
    KeptAllMatching([Object(item)], kwargs);
  }

  /** Filtering with no criteria returns `all()` unchanged. */
  lemma FilterWithoutCriteria(res: Result<seq<Json>, Error>)
    ensures AllFiltered(res, map[]) == res
  {
  }

  function Company(name: string, id: int): Json
  {
    Object(map["id" := Int(id), "name" := Str(name)])
  }

  /**
   * A search for "Test" that the server answers with "Test", "Test Company"
   * and "Test Department" yields only "Test".
   */
  lemma SearchKeepsExactName()
    ensures var resp := Object(map["data" := List([Company("Test", 1), Company("Test Company", 2), Company("Test Department", 3)])]);
      SearchFiltered(Success(resp), map["name" := Str("Test")]) == Success([Company("Test", 1)])
  {
    var kwargs := map["name" := Str("Test")];
    var x, y, z := Company("Test", 1), Company("Test Company", 2), Company("Test Department", 3);
    assert "name" in kwargs;
    assert Matches(x.fields, kwargs) by {
      assert Lower("Test") == "test";
    }
    assert !Matches(y.fields, kwargs) by {
      assert |Lower("Test Company")| != |Lower("Test")|;
      assert !FieldMatches(y.fields, "name", Str("Test"));
    }
    assert !Matches(z.fields, kwargs) by {
      assert |Lower("Test Department")| != |Lower("Test")|;
      assert !FieldMatches(z.fields, "name", Str("Test"));
    }
    assert Kept([z], kwargs) == Success([]) by {
      assert [z][1..] == [];
      assert Kept([z], kwargs) == Prepend([], Kept([], kwargs));
      var none: seq<Json> := [];
      assert none + none == none;
    }
    assert Kept([y, z], kwargs) == Success([]) by {
      assert [y, z][1..] == [z];
      assert Kept([y, z], kwargs) == Prepend([], Kept([z], kwargs));
    }
    var resp := Object(map["data" := List([x, y, z])]);
    assert Truthy(resp) by {
      assert "data" in resp.fields;
    }
    assert SearchData(resp.fields) == List([x, y, z]);
    assert Iterate(List([x, y, z])) == Some([x, y, z]);
    assert Kept([x, y, z], kwargs) == Success([x]) by {
      assert [x, y, z][1..] == [y, z];
      assert Kept([x, y, z], kwargs) == Prepend([x], Kept([y, z], kwargs));
      assert [x] + [] == [x];
    }
  }

  class CompaniesResource {
    const base: BaseResource

    /** `CompaniesResource(client)`: a resource on `/companies`. */
    constructor(client: RmsClient)
      ensures fresh(base) && base.client == client && base.path == COMPANIES_PATH
    {
      base := new BaseResource(client, COMPANIES_PATH);
    }

    /** The effect of `filter(**kwargs)` that returned `r`. */
    twostate predicate Filtered(kwargs: map<string, Json>, new r: Result<seq<Json>, Error>)
      reads base.client
    {
      var client := base.client;
      old(|client.outcomes|) <= |client.outcomes| &&
      if NameOnly(kwargs) then
        client.Made([SearchRequest(base.path, kwargs)]) && r == SearchFiltered(client.Returned()[0], kwargs)
      else
        client.Made(PageRequests(base.path, |client.Returned()|)) &&
        Paginate(client.Returned()).Done? && r == AllFiltered(Paginate(client.Returned()).result, kwargs) &&
        (forall k :: 0 <= k < |client.Returned()| ==> Paginate(client.Returned()[..k]).More?)
    }

    /** The effect of `_get_by_id(id)` that returned `r`. */
    twostate predicate FoundById(id: Id, new r: Result<Json, Error>)
      reads base.client
    {
      base.client.Made([Request(GET, IdPath(base.path, id), None, Null, Null, Null)]) &&
      r == Unwrapped(base.client.Returned()[0], "Company", id)
    }

    /** The effect of `_get_by_filters(**kwargs)` that returned `r`. */
    twostate predicate FoundByFilters(kwargs: map<string, Json>, new r: Result<Json, Error>)
      reads base.client
    {
      var client := base.client;
      old(|client.outcomes|) <= |client.outcomes| &&
      if NameOnly(kwargs) then
        client.Made([SearchRequest(base.path, kwargs)]) && r == SearchLookup(client.Returned()[0], kwargs)
      else
        client.Made(PageRequests(base.path, |client.Returned()|)) &&
        Paginate(client.Returned()).Done? && r == AllLookup(Paginate(client.Returned()).result, kwargs) &&
        (forall k :: 0 <= k < |client.Returned()| ==> Paginate(client.Returned()[..k]).More?)
    }

    /** `create(name, parent_id, **kwargs)`. */
    method Create(name: string, parentId: int, kwargs: map<string, Json>) returns (r: Result<Json, Error>)
      requires base.client.Valid()
      modifies base.client
      ensures base.client.Made([Request(POST, base.path, None, Object(CreateBody(name, parentId, kwargs)), Null, Null)])
      ensures r == RequireTruthy(base.client.Returned()[0], "Failed to create item")
    {
      r := base.Create(CreateBody(name, parentId, kwargs));
    }

    /** `filter(**kwargs)`: the search when the only filter is `name`, else `all()`; then the exact-match filter. */
    method Filter(kwargs: map<string, Json>) returns (r: Result<seq<Json>, Error>)
      requires base.client.Valid()
      modifies base.client
      ensures Filtered(kwargs, r)
    {
      var client := base.client;
      if |kwargs| == 1 && "name" in kwargs {
        var response := client.Get(base.path, Some(map["q" := kwargs["name"]]));
        assert client.Returned() == [response];
        if response.Failure? {
          return Failure(response.error);
        }
        var resp := response.value;
        if !Truthy(resp) {
          return Success([]);
        }
        if !resp.Object? {
          return Failure(NoGet(resp));
        }
        var data := SearchData(resp.fields);
        var items := Iterate(data);
        if items.None? {
          return Failure(NotIterable(data));
        }
        r := base.FilterItemsClientSide(items.value, kwargs);
      } else {
        var all := base.All();
        if all.Failure? {
          return Failure(all.error);
        }
        r := base.FilterItemsClientSide(all.value, kwargs);
      }
    }

    /** `_get_by_id(id)`. */
    method GetById(id: Id) returns (r: Result<Json, Error>)
      requires base.client.Valid()
      modifies base.client
      ensures FoundById(id, r)
    {
      var client := base.client;
      var response := client.Get(IdPath(base.path, id));
      assert client.Returned() == [response];
      r := Unwrapped(response, "Company", id);
    }

    /** `_get_by_filters(**kwargs)`. */
    method GetByFilters(kwargs: map<string, Json>) returns (r: Result<Json, Error>)
      requires base.client.Valid()
      modifies base.client
      ensures FoundByFilters(kwargs, r)
    {
      var client := base.client;
      var items: seq<Json>;
      if |kwargs| == 1 && "name" in kwargs {
        var response := client.Get(base.path, Some(map["q" := kwargs["name"]]));
        assert client.Returned() == [response];
        if response.Failure? {
          return Failure(response.error);
        }
        var resp := response.value;
        if !Truthy(resp) {
          return Failure(NotFoundError(Str("No companies found matching the criteria")));
        }
        if !resp.Object? {
          return Failure(NoGet(resp));
        }
        var data := SearchData(resp.fields);
        var iterated := Iterate(data);
        if iterated.None? {
          return Failure(NotIterable(data));
        }
        items := iterated.value;
      } else {
        var all := base.All();
        if all.Failure? {
          return Failure(all.error);
        }
        items := all.value;
      }
      r := PickExact(items, kwargs);
    }

    /** The end of `_get_by_filters`: the exact-match filter and the single-result check. */
    method PickExact(items: seq<Json>, kwargs: map<string, Json>) returns (r: Result<Json, Error>)
      ensures r == ExactMatch(items, kwargs)
    {
      var exact := base.FilterItemsClientSide(items, kwargs);
      if exact.Failure? {
        return Failure(exact.error);
      }
      var matches := exact.value;
      if |matches| == 0 {
        return Failure(NotFoundError(Str("No companies found with exact match for " + Repr(Object(kwargs)) +
                                         ". API returned " + NatToString(|items|) + " partial matches.")));
      }
      if |matches| > 1 {
        return Failure(ValueError("Multiple companies found (" + NatToString(|matches|) + ") with exact match for " +
                                  Repr(Object(kwargs)) + ". Use filter() to get all results or be more specific."));
      }
      r := Success(matches[0]);
    }

    /** `get(id, **kwargs)`: the id lookup, else the filter lookup, else a usage error. */
    method Get(id: Option<Id>, kwargs: map<string, Json>) returns (r: Result<Json, Error>)
      requires base.client.Valid()
      modifies base.client
      ensures id.Some? ==> FoundById(id.value, r)
      ensures id.None? && kwargs != map[] ==> FoundByFilters(kwargs, r)
      ensures id.None? && kwargs == map[] ==>
        unchanged(base.client) && r == Failure(ValueError("Either 'id' or filter parameters must be provided"))
    {
      if id.Some? {
        r := GetById(id.value);
        return;
      }
      if kwargs != map[] {
        r := GetByFilters(kwargs);
        return;
      }
      r := Failure(ValueError("Either 'id' or filter parameters must be provided"));
    }
  }
}
