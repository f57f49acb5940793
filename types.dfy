/**
 * The typed response records of `webgrid/types.py` and their decoders
 * `Meta.from_dict` and `Grid.from_dict`. Python dataclasses do not enforce
 * their annotations, so every scalar field holds whatever value the input
 * supplied; what a dataclass does enforce is that it is called with exactly
 * its fields, which is where decoding can fail.
 */
module Types {
  import opened Wrappers
  import opened PyValues

  datatype Filter = Filter(op: Value, value1: Value, value2: Value)
  datatype Paging = Paging(perPage: Value, onPage: Value)
  datatype Sort = Sort(key: Value, flagDesc: Value)
  datatype Meta = Meta(searchExpr: Value, filters: seq<Filter>, paging: Paging, sort: map<string, Sort>)
  datatype Grid = Grid(meta: Meta, records: Value)

  const FilterFields: set<string> := {"op", "value1", "value2"}
  const PagingFields: set<string> := {"per_page", "on_page"}
  const SortFields: set<string> := {"key", "flag_desc"}
  const MetaFields: set<string> := {"search_expr", "filters", "paging", "sort"}

  /** A mapping that `C(**v)` accepts for a dataclass `C` with fields `names`. */
  predicate HasExactly(v: Value, names: set<string>)
  {
    v.Dict? && v.fields.Keys == names
  }

  /** `Filter(**v)` */
  function FilterOf(v: Value): (r: Result<Filter, PyError>)
    ensures r.Ok? <==> HasExactly(v, FilterFields)
    ensures r.Ok? ==> FilterToDict(r.value) == v
    ensures r.Err? ==> r.error == TypeError
  {
    if HasExactly(v, FilterFields)
    then Ok(Filter(v.fields["op"], v.fields["value1"], v.fields["value2"]))
    else Err(TypeError)
  }

  /** `Paging(**v)` */
  function PagingOf(v: Value): (r: Result<Paging, PyError>)
    ensures r.Ok? <==> HasExactly(v, PagingFields)
    ensures r.Ok? ==> PagingToDict(r.value) == v
    ensures r.Err? ==> r.error == TypeError
  {
    if HasExactly(v, PagingFields)
    then Ok(Paging(v.fields["per_page"], v.fields["on_page"]))
    else Err(TypeError)
  }

  /** `Sort(**v)` */
  function SortOf(v: Value): (r: Result<Sort, PyError>)
    ensures r.Ok? <==> HasExactly(v, SortFields)
    ensures r.Ok? ==> SortToDict(r.value) == v
    ensures r.Err? ==> r.error == TypeError
  {
    if HasExactly(v, SortFields)
    then Ok(Sort(v.fields["key"], v.fields["flag_desc"]))
    else Err(TypeError)
  }

  /** `[Filter(**f) for f in items]`, evaluated front to back. */
  function DecodeFilters(items: seq<Value>): (r: Result<seq<Filter>, PyError>)
    ensures r.Ok? <==> forall i :: 0 <= i < |items| ==> HasExactly(items[i], FilterFields)
    ensures r.Ok? ==> |r.value| == |items|
    ensures r.Ok? ==> forall i :: 0 <= i < |items| ==> FilterOf(items[i]) == Ok(r.value[i])
    ensures r.Err? ==> r.error == TypeError
    decreases |items|
  {
    if items == [] then Ok([])
    else
      var first :- FilterOf(items[0]);
      var rest :- DecodeFilters(items[1..]);
      assert forall i :: 1 <= i < |items| ==> items[i] == items[1..][i - 1];
      Ok([first] + rest)
  }

  /**
   * The comprehension over `data['filters']`. Iterating a dict yields its
   * keys and iterating a str its characters; both are strs, which `**`
   * refuses, so only an empty dict or str gets through. Anything else that
   * is not a list is not iterable.
   */
  function IterateFilters(v: Value): (r: Result<seq<Filter>, PyError>)
    ensures r.Ok? && !v.List? ==> r.value == [] && (v == Dict(map[]) || v == Str(""))
    ensures !v.List? && !v.Dict? && !v.Str? ==> r.Err?
    ensures r.Err? ==> r.error == TypeError
  {
    match v
    case List(items) => DecodeFilters(items)
    case Dict(fields) => if fields == map[] then Ok([]) else Err(TypeError)
    case Str(s) => if s == "" then Ok([]) else Err(TypeError)
    case _ => Err(TypeError)
  }

  /** `{key: Sort(**s) for (key, s) in v.items()}` */
  function DecodeSortDict(v: Value): (r: Result<map<string, Sort>, PyError>)
    ensures !v.Dict? ==> r == Err(AttributeError("items"))
    ensures v.Dict? ==> (r.Ok? <==> forall k :: k in v.fields ==> HasExactly(v.fields[k], SortFields))
    ensures r.Ok? ==> r.value.Keys == v.fields.Keys && forall k :: k in v.fields ==> SortOf(v.fields[k]) == Ok(r.value[k])
    ensures v.Dict? && r.Err? ==> r.error == TypeError
  {
    match v
    case Dict(fields) =>
      if forall k :: k in fields ==> HasExactly(fields[k], SortFields)
      then Ok(map k | k in fields :: SortOf(fields[k]).value)
      else Err(TypeError)
    case _ => Err(AttributeError("items"))
  }

  /** An input that `Meta.from_dict` accepts. */
  predicate IsMetaDict(data: Value)
  {
    && data.Dict?
    && MetaFields <= data.fields.Keys
    && (match data.fields["filters"]
        case List(items) => forall i :: 0 <= i < |items| ==> HasExactly(items[i], FilterFields)
        case Dict(fields) => fields == map[]
        case Str(s) => s == ""
        case _ => false)
    && HasExactly(data.fields["paging"], PagingFields)
    && data.fields["sort"].Dict?
    && forall k :: k in data.fields["sort"].fields ==> HasExactly(data.fields["sort"].fields[k], SortFields)
  }

  /** `Meta.from_dict(data)`; the keyword arguments are evaluated in order. */
  function MetaFromDict(data: Value): (r: Result<Meta, PyError>)
    ensures r.Ok? <==> IsMetaDict(data)
    ensures r.Ok? ==> r.value.searchExpr == data.fields["search_expr"]
    ensures r.Ok? && data.fields["filters"].List? ==>
      var items := data.fields["filters"].items;
      && |r.value.filters| == |items|
      && forall i :: 0 <= i < |items| ==>
           r.value.filters[i] == Filter(items[i].fields["op"], items[i].fields["value1"], items[i].fields["value2"])
    ensures r.Ok? && !data.fields["filters"].List? ==> r.value.filters == []
    ensures r.Ok? ==>
      var paging := data.fields["paging"].fields;
      r.value.paging == Paging(paging["per_page"], paging["on_page"])
    ensures r.Ok? ==>
      var sort := data.fields["sort"].fields;
      && r.value.sort.Keys == sort.Keys
      && forall k :: k in sort ==> r.value.sort[k] == Sort(sort[k].fields["key"], sort[k].fields["flag_desc"])
    ensures !data.Dict? ==> r == Err(TypeError)
    ensures data.Dict? && "search_expr" !in data.fields ==> r == Err(KeyError("search_expr"))
    ensures data.Dict? && "search_expr" in data.fields && "filters" !in data.fields ==> r == Err(KeyError("filters"))
    ensures (data.Dict? && "search_expr" in data.fields && "filters" in data.fields
             && IterateFilters(data.fields["filters"]).Ok? && "paging" !in data.fields) ==> r == Err(KeyError("paging"))
    ensures (data.Dict? && "search_expr" in data.fields && "filters" in data.fields && "paging" in data.fields
             && IterateFilters(data.fields["filters"]).Ok? && PagingOf(data.fields["paging"]).Ok?
             && "sort" !in data.fields) ==> r == Err(KeyError("sort"))
    ensures r.Err? && r.error.KeyError? ==> r.error.key in MetaFields && r.error.key !in data.fields
  {
    var searchExpr :- Subscript(data, "search_expr");
    var filtersValue :- Subscript(data, "filters");
    var filters :- IterateFilters(filtersValue);
    var pagingValue :- Subscript(data, "paging");
    var paging :- PagingOf(pagingValue);
    var sortValue :- Subscript(data, "sort");
    var sort :- DecodeSortDict(sortValue);
    Ok(Meta(searchExpr, filters, paging, sort))
  }

  /** `Grid.from_dict(data)`: `meta` is decoded before `records` is looked up. */
  function GridFromDict(data: Value): (r: Result<Grid, PyError>)
    ensures r.Ok? <==> data.Dict? && "meta" in data.fields && "records" in data.fields
                       && MetaFromDict(data.fields["meta"]).Ok?
    ensures r.Ok? ==> MetaFromDict(data.fields["meta"]) == Ok(r.value.meta)
    ensures r.Ok? ==> r.value.records == data.fields["records"]
    ensures !data.Dict? ==> r == Err(TypeError)
    ensures data.Dict? && "meta" !in data.fields ==> r == Err(KeyError("meta"))
    ensures data.Dict? && "meta" in data.fields && MetaFromDict(data.fields["meta"]).Err? ==>
              r == Err(MetaFromDict(data.fields["meta"]).error)
    ensures (data.Dict? && "meta" in data.fields && "records" !in data.fields
             && MetaFromDict(data.fields["meta"]).Ok?) ==> r == Err(KeyError("records"))
  {
    var metaValue :- Subscript(data, "meta");
    var meta :- MetaFromDict(metaValue);
    var records :- Subscript(data, "records");
    Ok(Grid(meta, records))
  }

  // The dict shapes of the records (what `dataclasses.asdict` gives), used
  // to state that decoding loses nothing.

  function FilterToDict(f: Filter): Value
  {
    Dict(map["op" := f.op, "value1" := f.value1, "value2" := f.value2])
  }

  function PagingToDict(p: Paging): Value
  {
    Dict(map["per_page" := p.perPage, "on_page" := p.onPage])
  }

  function SortToDict(s: Sort): Value
  {
    Dict(map["key" := s.key, "flag_desc" := s.flagDesc])
  }

  function MetaToDict(m: Meta): Value
  {
    Dict(map[
      "search_expr" := m.searchExpr,
      "filters" := List(seq(|m.filters|, i requires 0 <= i < |m.filters| => FilterToDict(m.filters[i]))),
      "paging" := PagingToDict(m.paging),
      "sort" := Dict(map k | k in m.sort :: SortToDict(m.sort[k]))])
  }

  function GridToDict(g: Grid): Value
  {
    Dict(map["meta" := MetaToDict(g.meta), "records" := g.records])
  }

  /** Decoding the dict shape of a record gives the record back. */
  lemma MetaRoundTrip(m: Meta)
    ensures MetaFromDict(MetaToDict(m)) == Ok(m)
  {
    var d := MetaToDict(m);
    var items := d.fields["filters"].items;
    forall i | 0 <= i < |items|
      ensures HasExactly(items[i], FilterFields)
    {
      assert items[i] == FilterToDict(m.filters[i]);
    }
    assert IsMetaDict(d);
    var r := MetaFromDict(d).value;
    assert r.filters == m.filters;
    assert r.sort == m.sort;
  }

  lemma GridRoundTrip(g: Grid)
    ensures GridFromDict(GridToDict(g)) == Ok(g)
  {
    MetaRoundTrip(g.meta);
  }

  /**
   * Conversely, a dict that decodes, with its filters given as a list, is
   * the dict shape of its decoding once keys `Meta` does not read are set
   * aside.
   */
  lemma MetaFromDictLosesNothing(data: Value)
    requires MetaFromDict(data).Ok? && data.fields["filters"].List?
    ensures MetaToDict(MetaFromDict(data).value).fields.Keys == MetaFields
    ensures forall k :: k in MetaFields ==> MetaToDict(MetaFromDict(data).value).fields[k] == data.fields[k]
  {
    var m := MetaFromDict(data).value;
    var d := MetaToDict(m).fields;
    FiltersLoseNothing(data.fields["filters"].items, m.filters);
    PagingLosesNothing(data.fields["paging"], m.paging);
    SortLosesNothing(data.fields["sort"].fields, m.sort);
  }

  lemma FiltersLoseNothing(items: seq<Value>, filters: seq<Filter>)
    requires |filters| == |items|
    requires forall i :: 0 <= i < |items| ==>
      HasExactly(items[i], FilterFields) && filters[i] == Filter(items[i].fields["op"], items[i].fields["value1"], items[i].fields["value2"])
    ensures List(seq(|filters|, i requires 0 <= i < |filters| => FilterToDict(filters[i]))) == List(items)
  {
    var dicts := seq(|filters|, i requires 0 <= i < |filters| => FilterToDict(filters[i]));
    forall i | 0 <= i < |items|
      ensures dicts[i] == items[i]
    {
      var f := items[i].fields;
      assert f == map["op" := f["op"], "value1" := f["value1"], "value2" := f["value2"]];
    }
    assert dicts == items;
  }

  lemma PagingLosesNothing(v: Value, paging: Paging)
    requires HasExactly(v, PagingFields)
    requires paging == Paging(v.fields["per_page"], v.fields["on_page"])
    ensures PagingToDict(paging) == v
  {
    var f := v.fields;
    assert f == map["per_page" := f["per_page"], "on_page" := f["on_page"]];
  }

  lemma SortLosesNothing(sort: map<string, Value>, decoded: map<string, Sort>)
    requires decoded.Keys == sort.Keys
    requires forall k :: k in sort ==> HasExactly(sort[k], SortFields) && decoded[k] == Sort(sort[k].fields["key"], sort[k].fields["flag_desc"])
    ensures (map k | k in decoded :: SortToDict(decoded[k])) == sort
  {
    forall k | k in sort
      ensures SortToDict(decoded[k]) == sort[k]
    {
      var f := sort[k].fields;
      assert f == map["key" := f["key"], "flag_desc" := f["flag_desc"]];
    }
  }
}
