/**
 * `BaseResource`: the CRUD operations every API resource shares, offset/limit
 * pagination, and the exact-match filter applied on the client side.
 *
 * Each operation issues its requests through an `RmsClient`; its contract says
 * which logical requests it made (`client.Made`) and what it returns as a
 * function of what those requests returned (`client.Returned()`).
 */
module Base {
  import opened Wrappers
  import opened Text
  import opened Json
  import JsonValues = Json
  import opened Exceptions
  import opened Client

  /** The page size `all()` asks for. */
  const PAGE_LIMIT: nat := 100

  /** An item id, as the int or str the caller passes. */
  datatype Id = IntId(n: int) | StrId(s: string)
  {
    /** `str(id)`, as interpolated into a path or message. */
    function ToString(): string
    {
      match this
      case IntId(n) => IntToString(n)
      case StrId(s) => s
    }
  }

  /** `f"{path}/{id}"`. */
  function IdPath(path: string, id: Id): string
  {
    path + "/" + id.ToString()
  }

  /** The error `v.get(...)` raises when `v` is not a dict. */
  function NoGet(v: Json): Error
  {
    AttributeError("'" + TypeName(v) + "' object has no attribute 'get'")
  }

  /** The error iterating over `v` raises when it is not iterable. */
  function NotIterable(v: Json): Error
  {
    TypeError("'" + TypeName(v) + "' object is not iterable")
  }

  /** The error `len(v)` raises when `v` has no length. */
  function NoLen(v: Json): Error
  {
    TypeError("object of type '" + TypeName(v) + "' has no len()")
  }

  /** `if not response: raise ValueError(message)`; otherwise the response is returned as is. */
  function RequireTruthy(o: Result<Json, Error>, message: string): (r: Result<Json, Error>)
    ensures o.Success? && Truthy(o.value) ==> r == o
    ensures o.Success? && !Truthy(o.value) ==> r == Failure(ValueError(message))
    ensures o.Failure? ==> r == o
  {
    match o
    case Failure(e) => Failure(e)
    case Success(resp) => if Truthy(resp) then Success(resp) else Failure(ValueError(message))
  }

  // ---------------------------------------------------------------------------------------
  // Pagination

  /** The query parameters of the `i`-th page request. */
  function PageParams(i: nat): map<string, Json>
  {
    map["limit" := Int(PAGE_LIMIT), "offset" := Int(PAGE_LIMIT * i)]
  }

  function PageRequest(path: string, i: nat): Request
  {
    Request(GET, path, Some(PageParams(i)), Null, Null, Null)
  }

  /** The first `n` page requests, at offsets 0, 100, 200, ... */
  function PageRequests(path: string, n: nat): (r: seq<Request>)
    ensures |r| == n
    ensures forall i :: 0 <= i < n ==> r[i] == PageRequest(path, i)
  {
    seq(n, i requires 0 <= i < n => PageRequest(path, i))
  }

  /** The state of `all()` after some pages: still fetching with the items so far, or finished. */
  datatype Pagination = More(items: seq<Json>) | Done(result: Result<seq<Json>, Error>)

  /** One iteration of the `all()` loop: the items gathered so far and what the page request returned. */
  function Step(acc: seq<Json>, page: Result<Json, Error>): Pagination
  {
    match page
    case Failure(e) => Done(Failure(e))
    case Success(resp) =>
      if !Truthy(resp) then Done(Success(acc))
      else if !resp.Object? then Done(Failure(NoGet(resp)))
      else
        var data := Get(resp.fields, "data", List([]));
        if !Truthy(data) then Done(Success(acc))
        else if Iterate(data).None? then Done(Failure(NotIterable(data)))
        else
          var items := Iterate(data).value;
          var acc' := acc + items;
          var meta := Get(resp.fields, "meta", Object(map[]));
          if !meta.Object? then Done(Failure(NoGet(meta)))
          else
            var total := Get(meta.fields, "total", Null);
            if total != Null then
              if AsNumber(total).None? then
                Done(Failure(TypeError("'>=' not supported between instances of 'int' and '" + TypeName(total) + "'")))
              else if |acc'| >= AsNumber(total).value then Done(Success(acc'))
              else More(acc')
            else if |items| < PAGE_LIMIT then Done(Success(acc'))
            else More(acc')
  }

  /** The state of `all()` once the page requests have returned `pages`, in order. */
  function Paginate(pages: seq<Result<Json, Error>>): Pagination
  {
    if pages == [] then More([])
    else
      match Paginate(pages[..|pages| - 1])
      case More(acc) => Step(acc, pages[|pages| - 1])
      case Done(r) => Done(r)
  }

  lemma PaginateSnoc(pages: seq<Result<Json, Error>>, page: Result<Json, Error>)
    ensures Paginate(pages + [page]) == match Paginate(pages) case More(acc) => Step(acc, page) case Done(r) => Done(r)
  {
    assert (pages + [page])[..|pages|] == pages;
  }

  /** Every prefix of `pages`, itself included, leaves `all()` still fetching. */
  ghost predicate Pending(pages: seq<Result<Json, Error>>)
  {
    forall k :: 0 <= k <= |pages| ==> Paginate(pages[..k]).More?
  }

  lemma PendingExtends(pages: seq<Result<Json, Error>>, page: Result<Json, Error>)
    requires Pending(pages) && Paginate(pages + [page]).More?
    ensures Pending(pages + [page])
  {
    var s := pages + [page];
    forall k | 0 <= k <= |s| ensures Paginate(s[..k]).More? {
      if k <= |pages| {
        assert s[..k] == pages[..k];
      } else {
        assert s[..k] == s;
      }
    }
  }

  lemma PendingPrefixes(pages: seq<Result<Json, Error>>, page: Result<Json, Error>)
    requires Pending(pages)
    ensures forall k :: 0 <= k < |pages| + 1 ==> Paginate((pages + [page])[..k]).More?
  {
    forall k | 0 <= k < |pages| + 1 ensures Paginate((pages + [page])[..k]).More? {
      assert (pages + [page])[..k] == pages[..k];
    }
  }

  /** The items one page contributes: its `data`, as `extend` iterates it, when the loop gets that far. */
  function PageItems(page: Result<Json, Error>): seq<Json>
  {
    if page.Success? && Truthy(page.value) && page.value.Object? then
      var data := Get(page.value.fields, "data", List([]));
      if Truthy(data) && Iterate(data).Some? then Iterate(data).value else []
    else []
  }

  /** The concatenation of every page's items, in page order. */
  function Collected(pages: seq<Result<Json, Error>>): seq<Json>
  {
    if pages == [] then [] else Collected(pages[..|pages| - 1]) + PageItems(pages[|pages| - 1])
  }

  lemma StepCollects(acc: seq<Json>, page: Result<Json, Error>)
    ensures Step(acc, page).More? ==> Step(acc, page).items == acc + PageItems(page)
    ensures Step(acc, page).Done? && Step(acc, page).result.Success? ==>
      Step(acc, page).result.value == acc + PageItems(page)
  {
  }

  /**
   * `all()` returns the pages' items concatenated in page order: while fetching,
   * the accumulated list is that concatenation, and a run that finishes
   * successfully on its last page returns it.
   */
  lemma {:induction false} PaginateCollects(pages: seq<Result<Json, Error>>)
    ensures Paginate(pages).More? ==> Paginate(pages).items == Collected(pages)
    ensures pages != [] && Paginate(pages[..|pages| - 1]).More? && Paginate(pages).Done? && Paginate(pages).result.Success? ==>
      Paginate(pages).result.value == Collected(pages)
  {
    if pages != [] {
      var prefix := pages[..|pages| - 1];
      PaginateCollects(prefix);
      if Paginate(prefix).More? {
        StepCollects(Paginate(prefix).items, pages[|pages| - 1]);
      }
    }
  }

  /** The body of the `all()` loop for one page: stop with a result, or keep the items and go on. */
  method ReadPage(acc: seq<Json>, response: Result<Json, Error>) returns (next: Pagination)
    ensures next == Step(acc, response)
  {
    if response.Failure? {
      return Done(Failure(response.error));
    }
    var resp := response.value;
    if !Truthy(resp) {
      return Done(Success(acc));
    }
    if !resp.Object? {
      return Done(Failure(NoGet(resp)));
    }
    var data := Get(resp.fields, "data", List([]));
    if !Truthy(data) {
      return Done(Success(acc));
    }
    var items := Iterate(data);
    if items.None? {
      return Done(Failure(NotIterable(data)));
    }
    var acc' := acc + items.value;
    var meta := Get(resp.fields, "meta", Object(map[]));
    if !meta.Object? {
      return Done(Failure(NoGet(meta)));
    }
    var total := Get(meta.fields, "total", Null);
    if total != Null {
      var t := AsNumber(total);
      if t.None? {
        return Done(Failure(TypeError("'>=' not supported between instances of 'int' and '" + TypeName(total) + "'")));
      }
      if |acc'| >= t.value {
        return Done(Success(acc'));
      }
    } else if |items.value| < PAGE_LIMIT {
      return Done(Success(acc'));
    }
    return More(acc');
  }

  /** A falsy response or an empty `data` page ends `all()` with what it has so far. */
  lemma StopsOnEmptyPage(pages: seq<Result<Json, Error>>, resp: Json)
    requires Paginate(pages).More?
    requires !Truthy(resp) || (resp.Object? && !Truthy(Get(resp.fields, "data", List([]))))
    ensures Paginate(pages + [Success(resp)]) == Done(Success(Collected(pages)))
  {
    PaginateSnoc(pages, Success(resp));
    PaginateCollects(pages);
  }

  /** A page whose `meta` has no `total` and whose `data` is a non-empty list of fewer than 100 items ends `all()`. */
  lemma StopsOnShortPage(pages: seq<Result<Json, Error>>, fields: map<string, Json>, items: seq<Json>)
    requires Paginate(pages).More?
    requires Get(fields, "data", List([])) == List(items) && 0 < |items| < PAGE_LIMIT
    requires Get(fields, "meta", Object(map[])).Object? && Get(Get(fields, "meta", Object(map[])).fields, "total", Null) == Null
    ensures Paginate(pages + [Success(Object(fields))]) == Done(Success(Collected(pages) + items))
  {
    var acc := Paginate(pages).items;
    PaginateCollects(pages);
    assert "data" in fields && Truthy(Object(fields));
    assert Iterate(List(items)) == Some(items);
    assert Step(acc, Success(Object(fields))) == Done(Success(acc + items));
    PaginateSnoc(pages, Success(Object(fields)));
  }

  /** With no `total`, a full page of 100 items asks for the next page, holding what was collected plus its items. */
  lemma FullPageContinues(pages: seq<Result<Json, Error>>, fields: map<string, Json>, items: seq<Json>)
    requires Paginate(pages).More?
    requires Get(fields, "data", List([])) == List(items) && |items| == PAGE_LIMIT
    requires Get(fields, "meta", Object(map[])).Object? && Get(Get(fields, "meta", Object(map[])).fields, "total", Null) == Null
    ensures Paginate(pages + [Success(Object(fields))]) == More(Collected(pages) + items)
  {
    var acc := Paginate(pages).items;
    PaginateCollects(pages);
    assert "data" in fields && Truthy(Object(fields));
    assert Iterate(List(items)) == Some(items);
    assert Step(acc, Success(Object(fields))) == More(acc + items);
    PaginateSnoc(pages, Success(Object(fields)));
  }

  /** A page whose `meta.total` is the given number. */
  predicate ReportsTotal(page: Result<Json, Error>, total: int)
  {
    page.Success? && page.value.Object? &&
    var meta := Get(page.value.fields, "meta", Object(map[]));
    meta.Object? && Get(meta.fields, "total", Null) == Int(total)
  }

  /** While `all()` keeps fetching pages that report total T, every page added an item and fewer than T are held. */
  lemma {:induction false} PaginateProgress(pages: seq<Result<Json, Error>>, total: int)
    requires forall i :: 0 <= i < |pages| ==> ReportsTotal(pages[i], total)
    requires Paginate(pages).More?
    ensures |Paginate(pages).items| >= |pages|
    ensures pages != [] ==> |Paginate(pages).items| < total
  {
    if pages != [] {
      var prefix := pages[..|pages| - 1];
      var page := pages[|pages| - 1];
      assert forall i :: 0 <= i < |prefix| ==> prefix[i] == pages[i];
      PaginateProgress(prefix, total);
      var data := Get(page.value.fields, "data", List([]));
      TruthyLength(data);
    }
  }

  /** When every page reports total T, `all()` makes at most max(T, 1) requests. */
  lemma RequestBound(pages: seq<Result<Json, Error>>, total: int)
    requires forall i :: 0 <= i < |pages| ==> ReportsTotal(pages[i], total)
    requires pages != [] && Paginate(pages[..|pages| - 1]).More?
    ensures |pages| <= Max(total, 1)
  {
    var prefix := pages[..|pages| - 1];
    assert forall i :: 0 <= i < |prefix| ==> prefix[i] == pages[i];
    PaginateProgress(prefix, total);
  }

  // ---------------------------------------------------------------------------------------
  // Client-side filtering

  /** One filter entry against an item: case-insensitive when both are strings, Python `==` otherwise; a missing field is None. */
  predicate FieldMatches(item: map<string, Json>, key: string, value: Json)
  {
    var itemValue := Get(item, key, Null);
    if value.Str? && itemValue.Str? then Lower(itemValue.s) == Lower(value.s) else PyEquals(itemValue, value)
  }

  /** An item is kept iff every filter entry matches. */
  predicate Matches(item: map<string, Json>, filters: map<string, Json>)
  {
    forall k :: k in filters ==> FieldMatches(item, k, filters[k])
  }

  function Prepend(xs: seq<Json>, r: Result<seq<Json>, Error>): Result<seq<Json>, Error>
  {
    match r
    case Success(ys) => Success(xs + ys)
    case Failure(e) => Failure(e)
  }

  /** The filtering loop over `items` with non-empty filters; the first item that is not a dict raises. */
  function Kept(items: seq<Json>, filters: map<string, Json>): Result<seq<Json>, Error>
  {
    if items == [] then Success([])
    else if !items[0].Object? then Failure(NoGet(items[0]))
    else Prepend(if Matches(items[0].fields, filters) then [items[0]] else [], Kept(items[1..], filters))
  }

  /** `_filter_items_client_side(items, **filters)`. */
  function ClientSideFilter(items: seq<Json>, filters: map<string, Json>): Result<seq<Json>, Error>
  {
    if filters == map[] then Success(items) else Kept(items, filters)
  }

  /** The inner loop of the client-side filter: does every filter entry match the item? */
  method ItemMatches(item: map<string, Json>, filters: map<string, Json>) returns (matched: bool)
    ensures matched <==> Matches(item, filters)
  {
    matched := true;
    var keys := filters.Keys;
    while keys != {} && matched
      invariant keys <= filters.Keys
      invariant matched <==> forall k :: k in filters.Keys - keys ==> FieldMatches(item, k, filters[k])
      decreases |keys|
    {
      var key :| key in keys;
      var itemValue := Get(item, key, Null);
      var value := filters[key];
      if value.Str? && itemValue.Str? {
        if Lower(itemValue.s) != Lower(value.s) {
          matched := false;
        }
      } else if !PyEquals(itemValue, value) {
        matched := false;
      }
      keys := keys - {key};
    }
  }

  /** `r` keeps some of the elements of `s`, in their order. */
  predicate IsSubsequence(r: seq<Json>, s: seq<Json>)
  {
    if r == [] then true
    else if s == [] then false
    else (r[0] == s[0] && IsSubsequence(r[1..], s[1..])) || IsSubsequence(r, s[1..])
  }

  /**
   * The filter keeps exactly the matching dicts, in their original order and
   * each as many times as it occurs, and fails iff some item is not a dict.
   */
  lemma {:induction false} KeptSpec(items: seq<Json>, filters: map<string, Json>)
    ensures Kept(items, filters).Failure? <==> exists i :: 0 <= i < |items| && !items[i].Object?
    ensures Kept(items, filters).Failure? ==> Kept(items, filters).error.AttributeError?
    ensures Kept(items, filters).Success? ==>
      var r := Kept(items, filters).value;
      IsSubsequence(r, items) &&
      (forall x :: x in r <==> x in items && x.Object? && Matches(x.fields, filters)) &&
      forall x :: multiset(r)[x] == if x.Object? && Matches(x.fields, filters) then multiset(items)[x] else 0
  {
    KeptShape(items, filters);
    if Kept(items, filters).Success? {
      KeptCounts(items, filters);
    }
  }

  /** The filter fails, with AttributeError, iff some item is not a dict; otherwise it keeps an order-preserving sublist of exactly the matching dicts. */
  lemma {:induction false} KeptShape(items: seq<Json>, filters: map<string, Json>)
    ensures Kept(items, filters).Failure? <==> exists i :: 0 <= i < |items| && !items[i].Object?
    ensures Kept(items, filters).Failure? ==> Kept(items, filters).error.AttributeError?
    ensures Kept(items, filters).Success? ==>
      var r := Kept(items, filters).value;
      IsSubsequence(r, items) &&
      forall x :: x in r <==> x in items && x.Object? && Matches(x.fields, filters)
  {
    if items != [] {
      KeptShape(items[1..], filters);
      if !items[0].Object? {
        assert !items[0].Object?;
      } else {
        var rest := Kept(items[1..], filters);
        if rest.Failure? {
          var i :| 0 <= i < |items[1..]| && !items[1..][i].Object?;
          assert !items[i + 1].Object?;
        } else {
          forall i | 0 <= i < |items| ensures items[i].Object? {
            if i > 0 {
              assert items[i] == items[1..][i - 1];
            }
          }
          var head := if Matches(items[0].fields, filters) then [items[0]] else [];
          var r := head + rest.value;
          if head == [] {
            assert r == rest.value;
            if r != [] {
              assert IsSubsequence(r, items[1..]);
            }
          } else {
            assert r[0] == items[0] && r[1..] == rest.value;
          }
          assert items == [items[0]] + items[1..];
        }
      }
    }
  }

  /** Every matching dict is kept as many times as it occurs, and nothing else is kept. */
  lemma {:induction false} KeptCounts(items: seq<Json>, filters: map<string, Json>)
    requires Kept(items, filters).Success?
    ensures forall x :: multiset(Kept(items, filters).value)[x] == (if x.Object? && Matches(x.fields, filters) then multiset(items)[x] else 0)
  {
    if items != [] {
      KeptCounts(items[1..], filters);
      var head := if Matches(items[0].fields, filters) then [items[0]] else [];
      var rest := Kept(items[1..], filters).value;
      assert Kept(items, filters).value == head + rest;
      ConsCounts(items, filters, rest);
    }
  }

  /** One step of `KeptCounts`: keeping or dropping the first dict adjusts its count and no other. */
  lemma ConsCounts(items: seq<Json>, filters: map<string, Json>, rest: seq<Json>)
    requires items != [] && items[0].Object?
    requires forall x :: multiset(rest)[x] == (if x.Object? && Matches(x.fields, filters) then multiset(items[1..])[x] else 0)
    ensures var kept := (if Matches(items[0].fields, filters) then [items[0]] else []) + rest;
      forall x :: multiset(kept)[x] == (if x.Object? && Matches(x.fields, filters) then multiset(items)[x] else 0)
  {
    var head := if Matches(items[0].fields, filters) then [items[0]] else [];
    assert items == [items[0]] + items[1..];
    assert multiset(items) == multiset([items[0]]) + multiset(items[1..]);
    assert multiset(head + rest) == multiset(head) + multiset(rest);
    forall x: Json
      ensures multiset(head + rest)[x] == (if x.Object? && Matches(x.fields, filters) then multiset(items)[x] else 0)
    {
      assert multiset(items)[x] == multiset([items[0]])[x] + multiset(items[1..])[x];
    }
  }

  /** Filtering a list of dicts that all match keeps every one of them. */
  lemma {:induction false} KeptAllMatching(items: seq<Json>, filters: map<string, Json>)
    requires forall x :: x in items ==> x.Object? && Matches(x.fields, filters)
    ensures Kept(items, filters) == Success(items)
  {
    if items != [] {
      assert items[0] in items;
      assert forall x :: x in items[1..] ==> x in items;
      KeptAllMatching(items[1..], filters);
      assert [items[0]] + items[1..] == items;
    }
  }

  /** Filtering twice with the same criteria gives the same result as filtering once. */
  lemma FilterIdempotent(items: seq<Json>, filters: map<string, Json>)
    requires ClientSideFilter(items, filters).Success?
    ensures ClientSideFilter(ClientSideFilter(items, filters).value, filters) == ClientSideFilter(items, filters)
  {
    if filters != map[] {
      KeptSpec(items, filters);
      KeptAllMatching(Kept(items, filters).value, filters);
    }
  }

  /** With no criteria the items come back unchanged, whatever they are. */
  lemma EmptyFiltersKeepAll(items: seq<Json>)
    ensures ClientSideFilter(items, map[]) == Success(items)
  {
  }

  lemma PrependAssoc(xs: seq<Json>, ys: seq<Json>, r: Result<seq<Json>, Error>)
    ensures Prepend(xs, Prepend(ys, r)) == Prepend(xs + ys, r)
  {
    if r.Success? {
      assert xs + (ys + r.value) == (xs + ys) + r.value;
    }
  }

  // ---------------------------------------------------------------------------------------
  // Single-item lookups

  /** `get(id=...)`: a falsy response means the item does not exist; anything else is returned unchanged. */
  function GetByIdResult(id: Id, o: Result<Json, Error>): (r: Result<Json, Error>)
    ensures o.Success? && Truthy(o.value) ==> r == o
    ensures o.Success? && !Truthy(o.value) ==> r.Failure? && r.error.NotFoundError?
    ensures o.Failure? ==> r == o
  {
    match o
    case Failure(e) => Failure(e)
    case Success(resp) =>
      if Truthy(resp) then Success(resp)
      else Failure(NotFoundError(Str("Item with id " + id.ToString() + " not found")))
  }

  /** The first element, as `data[0]` reads it from a value with length 1. */
  function Index0(data: Json): Result<Json, Error>
    requires PyLen(data) == Some(1)
  {
    match data
    case List(xs) => Success(xs[0])
    case Str(s) => Success(Str(s))
    case Object(_) => Failure(KeyError("0"))
  }

  /**
   * The single-result lookup by filters: no response or no `data` items is "not
   * found", several items are ambiguous, exactly one is returned. `noun` names
   * the resource in the messages ("items", "devices").
   */
  function SingleItem(o: Result<Json, Error>, noun: string): Result<Json, Error>
  {
    var none := NotFoundError(Str("No " + noun + " found matching the criteria"));
    match o
    case Failure(e) => Failure(e)
    case Success(resp) =>
      if !Truthy(resp) then Failure(none)
      else if !resp.Object? then Failure(NoGet(resp))
      else
        var data := Get(resp.fields, "data", List([]));
        match PyLen(data)
        case None => Failure(NoLen(data))
        case Some(n) =>
          if n == 0 then Failure(none)
          else if n > 1 then
            Failure(ValueError("Multiple " + noun + " found (" + NatToString(n) +
                               "). Use filter() to get all results or be more specific."))
          else Index0(data)
  }

  /** For a response whose `data` is a list: none is "not found", more than one is a ValueError, one is returned. */
  lemma SingleItemCases(resp: map<string, Json>, items: seq<Json>, noun: string)
    requires Get(resp, "data", List([])) == List(items)
    ensures var r := SingleItem(Success(Object(resp)), noun);
      (|items| == 0 ==> r.Failure? && r.error.NotFoundError?) &&
      (|items| > 1 ==> r.Failure? && r.error.ValueError?) &&
      (|items| == 1 ==> r == Success(items[0]))
  {
    if resp == map[] {
      assert "data" !in resp;
    }
  }

  /** A falsy response is always "not found". */
  lemma SingleItemFalsy(resp: Json, noun: string)
    requires !Truthy(resp)
    ensures SingleItem(Success(resp), noun) == Failure(NotFoundError(Str("No " + noun + " found matching the criteria")))
  {
  }

  /**
   * The id lookup of the companies and devices resources: a falsy response is
   * "not found"; a dict response whose `data` is a dict, or a non-empty list,
   * is unwrapped to that dict or the list's first element; anything else is
   * returned whole. `noun` names the resource in the message.
   */
  function Unwrapped(o: Result<Json, Error>, noun: string, id: Id): (r: Result<Json, Error>)
    ensures o.Failure? ==> r == o
    ensures o.Success? && !Truthy(o.value) ==> r == Failure(NotFoundError(Str(noun + " with id " + id.ToString() + " not found")))
    ensures r.Success? ==> o.Success? && Truthy(o.value)
  {
    match o
    case Failure(e) => Failure(e)
    case Success(resp) =>
      if !Truthy(resp) then Failure(NotFoundError(Str(noun + " with id " + id.ToString() + " not found")))
      else if resp.Object? && "data" in resp.fields then
        var data := resp.fields["data"];
        if data.Object? then Success(data)
        else if data.List? && |data.items| > 0 then Success(data.items[0])
        else Success(resp)
      else Success(resp)
  }

  /** The unwrapping rules, case by case; `data == []` gives back the whole response. */
  lemma UnwrapCases(fields: map<string, Json>, noun: string, id: Id)
    requires fields != map[]
    ensures var r := Unwrapped(Success(Object(fields)), noun, id);
      ("data" in fields && fields["data"].Object? ==> r == Success(fields["data"])) &&
      ("data" in fields && fields["data"].List? && fields["data"].items != [] ==> r == Success(fields["data"].items[0])) &&
      ("data" !in fields || !(fields["data"].Object? || (fields["data"].List? && fields["data"].items != [])) ==>
         r == Success(Object(fields)))
  {
  }

  /** A truthy response that is not a dict is returned unchanged. */
  lemma UnwrapNonObject(resp: Json, noun: string, id: Id)
    requires Truthy(resp) && !resp.Object?
    ensures Unwrapped(Success(resp), noun, id) == Success(resp)
  {
  }

  /** `filter(**kwargs)`: `[]` on a falsy response, else the response's `data` (default `[]`), unchecked. */
  function FilterResult(o: Result<Json, Error>): (r: Result<Json, Error>)
    ensures o.Success? && !Truthy(o.value) ==> r == Success(List([]))
    ensures o.Success? && o.value.Object? && "data" in o.value.fields && Truthy(o.value) ==> r == Success(o.value.fields["data"])
    ensures o.Success? && (o.value.Object? || !Truthy(o.value)) ==> r.Success?
  {
    match o
    case Failure(e) => Failure(e)
    case Success(resp) =>
      if !Truthy(resp) then Success(List([]))
      else if !resp.Object? then Failure(NoGet(resp))
      else Success(Get(resp.fields, "data", List([])))
  }

  class BaseResource {
    const client: RmsClient
    const path: string

    /** `BaseResource(client, path)`: the path loses its trailing slashes. */
    constructor(client: RmsClient, path: string)
      ensures this.client == client && this.path == StripTrailing(path, '/')
    {
      this.client := client;
      this.path := StripTrailing(path, '/');
    }

    /**
     * `all()`: page requests at offsets 0, 100, 200, ... until a stop rule
     * applies; the result is what Paginate makes of the responses, and every
     * earlier page asked for another.
     */
    method All() returns (r: Result<seq<Json>, Error>)
      requires client.Valid()
      modifies client
      ensures old(|client.outcomes|) <= |client.outcomes|
      ensures client.Made(PageRequests(path, |client.Returned()|))
      ensures Paginate(client.Returned()) == Done(r)
      ensures forall k :: 0 <= k < |client.Returned()| ==> Paginate(client.Returned()[..k]).More?
    {
      var acc: seq<Json> := [];
      var offset: nat := 0;
      ghost var seen: seq<Result<Json, Error>> := [];
      ghost var tape, sent0, sleeps0, calls0, outcomes0 := client.replies, client.sent, client.sleeps, client.calls, client.outcomes;
      while true
        invariant client.Ran(tape, sent0, sleeps0, calls0, outcomes0, PageRequests(path, |seen|))
        invariant client.Run(tape, PageRequests(path, |seen|)).outcomes == seen
        invariant offset == PAGE_LIMIT * |seen|
        invariant Paginate(seen) == More(acc)
        invariant Pending(seen)
        decreases |client.replies|
      {
        ghost var before := seen;
        var response := FetchPage(offset, |seen|, tape, sent0, sleeps0, calls0, outcomes0);
        seen := seen + [response];
        PaginateSnoc(before, response);
        PendingPrefixes(before, response);
        var next := ReadPage(acc, response);
        if next.Done? {
          r := next.result;
          break;
        }
        acc := next.items;
        offset := offset + PAGE_LIMIT;
        PendingExtends(before, response);
      }
      assert client.Returned() == seen;
    }

    /** One page request of `all()`: the `i`-th GET, at `offset`, continues the transcript of the earlier ones. */
    method FetchPage(offset: nat, ghost i: nat, ghost tape: seq<Reply>, ghost sent0: seq<Sent>, ghost sleeps0: seq<nat>,
                     ghost calls0: seq<Request>, ghost outcomes0: seq<Result<Json, Error>>)
      returns (response: Result<Json, Error>)
      requires offset == PAGE_LIMIT * i
      requires client.Ran(tape, sent0, sleeps0, calls0, outcomes0, PageRequests(path, i))
      modifies client
      ensures client.Ran(tape, sent0, sleeps0, calls0, outcomes0, PageRequests(path, i + 1))
      ensures client.Run(tape, PageRequests(path, i + 1)).outcomes == client.Run(tape, PageRequests(path, i)).outcomes + [response]
      ensures response.Success? ==> |client.replies| < old(|client.replies|)
    {
      ghost var reqs, req := PageRequests(path, i), PageRequest(path, i);
      ghost var tape1, sent1, sleeps1, calls1, outcomes1 := client.replies, client.sent, client.sleeps, client.calls, client.outcomes;
      response := client.Get(path, Some(map["limit" := Int(PAGE_LIMIT), "offset" := Int(offset)]));
      assert req == Request(GET, path, Some(map["limit" := Int(PAGE_LIMIT), "offset" := Int(offset)]), Null, Null, Null);
      client.LeadsCompose(tape, sent0, sleeps0, calls0, outcomes0, reqs, tape1, sent1, sleeps1, calls1, outcomes1, req,
                          client.replies, client.sent, client.sleeps, client.calls, client.outcomes);
      assert reqs + [req] == PageRequests(path, i + 1);
    }

    /** `get(id, **filters)`: the id wins; else the filters must single out one item; else a usage error. */
    method Get(id: Option<Id>, filters: map<string, Json>) returns (r: Result<Json, Error>)
      requires client.Valid()
      modifies client
      ensures id.Some? ==>
        client.Made([Request(GET, IdPath(path, id.value), None, Null, Null, Null)]) &&
        r == GetByIdResult(id.value, client.Returned()[0])
      ensures id.None? && filters != map[] ==>
        client.Made([Request(GET, path, Some(filters), Null, Null, Null)]) &&
        r == SingleItem(client.Returned()[0], "items")
      ensures id.None? && filters == map[] ==>
        unchanged(client) && r == Failure(ValueError("Either 'id' or filter parameters must be provided"))
    {
      if id.Some? {
        var response := client.Get(IdPath(path, id.value));
        if response.Success? && !Truthy(response.value) {
          r := Failure(NotFoundError(Str("Item with id " + id.value.ToString() + " not found")));
        } else {
          r := response;
        }
        assert client.Returned() == [response];
        return;
      }
      if filters != map[] {
        var response := client.Get(path, Some(filters));
        r := SingleItem(response, "items");
        assert client.Returned() == [response];
        return;
      }
      r := Failure(ValueError("Either 'id' or filter parameters must be provided"));
    }

    /** `filter(**filters)`: the filters go to the server as query parameters. */
    method Filter(filters: map<string, Json>) returns (r: Result<Json, Error>)
      requires client.Valid()
      modifies client
      ensures client.Made([Request(GET, path, Some(filters), Null, Null, Null)])
      ensures r == FilterResult(client.Returned()[0])
    {
      var response := client.Get(path, Some(filters));
      r := FilterResult(response);
      assert client.Returned() == [response];
    }

    /** `create(**fields)`: POSTs the fields; a falsy response is a failure. */
    method Create(fields: map<string, Json>) returns (r: Result<Json, Error>)
      requires client.Valid()
      modifies client
      ensures client.Made([Request(POST, path, None, Object(fields), Null, Null)])
      ensures r == RequireTruthy(client.Returned()[0], "Failed to create item")
    {
      var response := client.Post(path, Object(fields));
      r := RequireTruthy(response, "Failed to create item");
      assert client.Returned() == [response];
    }

    /** `update(id, data)`: PUTs the data to the item's path; a falsy response is a failure. */
    method Update(id: Id, data: Json) returns (r: Result<Json, Error>)
      requires client.Valid()
      modifies client
      ensures client.Made([Request(PUT, IdPath(path, id), None, data, Null, Null)])
      ensures r == RequireTruthy(client.Returned()[0], "Failed to update item with id " + id.ToString())
    {
      var response := client.Put(IdPath(path, id), data);
      r := RequireTruthy(response, "Failed to update item with id " + id.ToString());
      assert client.Returned() == [response];
    }

    /** `delete(id)`: the response is returned as is. */
    method Delete(id: Id) returns (r: Result<Json, Error>)
      requires client.Valid()
      modifies client
      ensures client.Made([Request(DELETE, IdPath(path, id), None, Null, Null, Null)])
      ensures r == client.Returned()[0]
    {
      r := client.Delete(IdPath(path, id));
      assert client.Returned() == [r];
    }

    /** `_filter_items_client_side(items, **filters)`: the nested match loop. */
    method FilterItemsClientSide(items: seq<Json>, filters: map<string, Json>) returns (r: Result<seq<Json>, Error>)
      ensures r == ClientSideFilter(items, filters)
    {
      if filters == map[] {
        return Success(items);
      }
      var filtered: seq<Json> := [];
      var i := 0;
      assert items[0..] == items;
      assert Prepend([], Kept(items, filters)) == Kept(items, filters) by {
        if Kept(items, filters).Success? {
          assert [] + Kept(items, filters).value == Kept(items, filters).value;
        }
      }
      while i < |items|
        invariant 0 <= i <= |items|
        invariant Kept(items, filters) == Prepend(filtered, Kept(items[i..], filters))
      {
        var item := items[i];
        if !item.Object? {
          return Failure(NoGet(item));
        }
        var matched := ItemMatches(item.fields, filters);
        var head := if matched then [item] else [];
        assert items[i..][1..] == items[i + 1..];
        PrependAssoc(filtered, head, Kept(items[i + 1..], filters));
        filtered := filtered + head;
        i := i + 1;
      }
      assert items[i..] == [];
      assert filtered + [] == filtered;
      r := Success(filtered);
    }
  }
}
