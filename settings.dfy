/**
 * The grid settings codec whose contract `webgrid/tests/test_types.py`
 * pins down: `GridSettings.from_dict`, which reads the JSON shape of the
 * settings and fills in defaults for missing keys, and `to_args`, which
 * writes the flat request-argument form.
 */
module Settings {
  import opened Wrappers
  import opened PyValues
  import opened ArgKeys

  datatype Filter = Filter(op: string, value1: Option<string>, value2: Option<string>)
  datatype Paging = Paging(pagerOn: bool, onPage: Option<int>, perPage: Option<int>)
  datatype Sort = Sort(key: string, flagDesc: bool)
  datatype GridSettings = GridSettings(
    searchExpr: Option<string>,
    filters: map<string, Filter>,
    paging: Paging,
    sort: seq<Sort>,
    exportTo: Option<string>)

  const DefaultPaging: Paging := Paging(false, None, None)
  const DefaultSettings: GridSettings := GridSettings(None, map[], DefaultPaging, [], None)

  /** `d.get(key, default)` */
  function Get(d: map<string, Value>, key: string, default: Value): Value
  {
    if key in d then d[key] else default
  }

  /** A str-or-None value; anything else does not decode. */
  function OptStrOf(v: Value): Option<Option<string>>
  {
    match v
    case Null => Some(None)
    case Str(s) => Some(Some(s))
    case _ => None
  }

  /** An int-or-None value; anything else does not decode. */
  function OptIntOf(v: Value): Option<Option<int>>
  {
    match v
    case Null => Some(None)
    case Int(i) => Some(Some(i))
    case _ => None
  }

  /** `Filter(**v)`: `op` and `value1` are required, `value2` defaults to None. */
  function FilterOf(v: Value): (r: Option<Filter>)
    ensures r.Some? ==>
      && v.Dict? && v.fields.Keys <= {"op", "value1", "value2"}
      && "op" in v.fields && v.fields["op"] == Str(r.value.op)
      && "value1" in v.fields && v.fields["value1"] == OptStrValue(r.value.value1)
      && Get(v.fields, "value2", Null) == OptStrValue(r.value.value2)
    ensures v.Dict? && !("op" in v.fields && "value1" in v.fields) ==> r == None
  {
    if && v.Dict?
       && v.fields.Keys <= {"op", "value1", "value2"}
       && "op" in v.fields && "value1" in v.fields
       && v.fields["op"].Str?
    then
      var value1 :- OptStrOf(v.fields["value1"]);
      var value2 :- OptStrOf(Get(v.fields, "value2", Null));
      Some(Filter(v.fields["op"].s, value1, value2))
    else None
  }

  /** `Paging(**v)`: every field has a default. */
  function PagingOf(v: Value): (r: Option<Paging>)
    ensures r.Some? ==>
      && v.Dict? && v.fields.Keys <= {"pager_on", "on_page", "per_page"}
      && Get(v.fields, "pager_on", Bool(false)) == Bool(r.value.pagerOn)
      && Get(v.fields, "on_page", Null) == OptIntValue(r.value.onPage)
      && Get(v.fields, "per_page", Null) == OptIntValue(r.value.perPage)
    ensures v == Dict(map[]) ==> r == Some(DefaultPaging)
  {
    if v.Dict? && v.fields.Keys <= {"pager_on", "on_page", "per_page"}
    then
      var pagerOn := Get(v.fields, "pager_on", Bool(false));
      if !pagerOn.Bool? then None
      else
        var onPage :- OptIntOf(Get(v.fields, "on_page", Null));
        var perPage :- OptIntOf(Get(v.fields, "per_page", Null));
        Some(Paging(pagerOn.b, onPage, perPage))
    else None
  }

  /** `Sort(**v)`: both fields required. */
  function SortOf(v: Value): (r: Option<Sort>)
    ensures r.Some? ==> v == SortToDict(r.value)
    ensures (exists s :: v == SortToDict(s)) ==> r.Some?
  {
    if && v.Dict? && v.fields.Keys == {"key", "flag_desc"}
       && v.fields["key"].Str? && v.fields["flag_desc"].Bool?
    then Some(Sort(v.fields["key"].s, v.fields["flag_desc"].b))
    else None
  }

  /** `{key: Filter(**f) for key, f in v.items()}` */
  function DecodeFilterMap(v: Value): (r: Option<map<string, Filter>>)
    ensures r.Some? <==> v.Dict? && forall k :: k in v.fields ==> FilterOf(v.fields[k]).Some?
    ensures r.Some? ==> r.value.Keys == v.fields.Keys && forall k :: k in v.fields ==> FilterOf(v.fields[k]) == Some(r.value[k])
  {
    if v.Dict? && forall k :: k in v.fields ==> FilterOf(v.fields[k]).Some?
    then Some(map k | k in v.fields :: FilterOf(v.fields[k]).value)
    else None
  }

  /** `[Sort(**s) for s in items]`, in list order. */
  function DecodeSortList(items: seq<Value>): (r: Option<seq<Sort>>)
    ensures r.Some? <==> forall i :: 0 <= i < |items| ==> SortOf(items[i]).Some?
    ensures r.Some? ==> |r.value| == |items|
    ensures r.Some? ==> forall i :: 0 <= i < |items| ==> SortOf(items[i]) == Some(r.value[i])
    decreases |items|
  {
    if items == [] then Some([])
    else
      var first :- SortOf(items[0]);
      var rest :- DecodeSortList(items[1..]);
      assert forall i :: 1 <= i < |items| ==> items[i] == items[1..][i - 1];
      Some([first] + rest)
  }

  function DecodeSort(v: Value): (r: Option<seq<Sort>>)
    ensures r.Some? ==> v.List? && |r.value| == |v.items|
    ensures r.Some? ==> forall i :: 0 <= i < |v.items| ==> SortOf(v.items[i]) == Some(r.value[i])
    ensures !v.List? ==> r == None
  {
    if v.List? then DecodeSortList(v.items) else None
  }

  /** `GridSettings.from_dict(data)`: unknown keys are ignored, missing ones default. */
  function FromDict(data: map<string, Value>): (r: Option<GridSettings>)
    ensures r.Some? <==>
      && OptStrOf(Get(data, "search_expr", Null)).Some?
      && DecodeFilterMap(Get(data, "filters", Dict(map[]))).Some?
      && PagingOf(Get(data, "paging", Dict(map[]))).Some?
      && DecodeSort(Get(data, "sort", List([]))).Some?
      && OptStrOf(Get(data, "export_to", Null)).Some?
    ensures r.Some? && "search_expr" !in data ==> r.value.searchExpr == None
    ensures r.Some? && "filters" !in data ==> r.value.filters == map[]
    ensures r.Some? && "paging" !in data ==> r.value.paging == DefaultPaging
    ensures r.Some? && "sort" !in data ==> r.value.sort == []
    ensures r.Some? && "export_to" !in data ==> r.value.exportTo == None
    ensures r.Some? && "search_expr" in data ==> data["search_expr"] == OptStrValue(r.value.searchExpr)
    ensures r.Some? && "paging" in data ==> PagingOf(data["paging"]) == Some(r.value.paging)
    ensures r.Some? && "export_to" in data ==> data["export_to"] == OptStrValue(r.value.exportTo)
    ensures r.Some? && "filters" in data ==>
      var given := data["filters"].fields;
      && r.value.filters.Keys == given.Keys
      && forall k :: k in given ==> FilterOf(given[k]) == Some(r.value.filters[k])
    ensures r.Some? && "sort" in data ==>
      var given := data["sort"].items;
      && |r.value.sort| == |given|
      && forall i :: 0 <= i < |given| ==> SortOf(given[i]) == Some(r.value.sort[i])
  {
    var filters :- DecodeFilterMap(Get(data, "filters", Dict(map[])));
    var paging :- PagingOf(Get(data, "paging", Dict(map[])));
    var sort :- DecodeSort(Get(data, "sort", List([])));
    var searchExpr :- OptStrOf(Get(data, "search_expr", Null));
    var exportTo :- OptStrOf(Get(data, "export_to", Null));
    Some(GridSettings(searchExpr, filters, paging, sort, exportTo))
  }

  // ---------------------------------------------------------------------
  // The JSON shape of the settings, which `from_dict` reads.

  function OptStrValue(o: Option<string>): Value
  {
    match o
    case None => Null
    case Some(s) => Str(s)
  }

  function OptIntValue(o: Option<int>): Value
  {
    match o
    case None => Null
    case Some(i) => Int(i)
  }

  function FilterToDict(f: Filter): Value
  {
    Dict(map["op" := Str(f.op), "value1" := OptStrValue(f.value1), "value2" := OptStrValue(f.value2)])
  }

  function PagingToDict(p: Paging): Value
  {
    Dict(map["pager_on" := Bool(p.pagerOn), "on_page" := OptIntValue(p.onPage), "per_page" := OptIntValue(p.perPage)])
  }

  function SortToDict(s: Sort): Value
  {
    Dict(map["key" := Str(s.key), "flag_desc" := Bool(s.flagDesc)])
  }

  function SortListToValue(sort: seq<Sort>): Value
  {
    List(seq(|sort|, i requires 0 <= i < |sort| => SortToDict(sort[i])))
  }

  function ToDict(s: GridSettings): map<string, Value>
  {
    map[
      "search_expr" := OptStrValue(s.searchExpr),
      "filters" := Dict(map k | k in s.filters :: FilterToDict(s.filters[k])),
      "paging" := PagingToDict(s.paging),
      "sort" := SortListToValue(s.sort),
      "export_to" := OptStrValue(s.exportTo)]
  }

  /** Every settings value survives the trip through its JSON shape. */
  lemma FromDictRoundTrip(s: GridSettings)
    ensures FromDict(ToDict(s)) == Some(s)
  {
    var d := ToDict(s);
    FilterMapRoundTrip(s.filters);
    PagingRoundTrip(s.paging);
    SortListRoundTrip(s.sort);
    assert DecodeFilterMap(Get(d, "filters", Dict(map[]))) == Some(s.filters);
    assert PagingOf(Get(d, "paging", Dict(map[]))) == Some(s.paging);
    assert DecodeSort(Get(d, "sort", List([]))) == Some(s.sort);
    assert OptStrOf(OptStrValue(s.searchExpr)) == Some(s.searchExpr);
    assert OptStrOf(OptStrValue(s.exportTo)) == Some(s.exportTo);
  }

  lemma FilterRoundTrip(f: Filter)
    ensures FilterOf(FilterToDict(f)) == Some(f)
  {
    assert OptStrOf(OptStrValue(f.value1)) == Some(f.value1);
    assert OptStrOf(OptStrValue(f.value2)) == Some(f.value2);
  }

  /** A filter dict whose every entry decodes to the entry of `m` under the same key decodes to `m`. */
  lemma FilterMapDecodesTo(fields: map<string, Value>, m: map<string, Filter>)
    requires fields.Keys == m.Keys
    requires forall k | k in fields :: FilterOf(fields[k]) == Some(m[k])
    ensures DecodeFilterMap(Dict(fields)) == Some(m)
  {
    assert (map k | k in fields :: FilterOf(fields[k]).value) == m;
  }

  lemma FilterMapRoundTrip(filters: map<string, Filter>)
    ensures DecodeFilterMap(Dict(map k | k in filters :: FilterToDict(filters[k]))) == Some(filters)
  {
    var given := map k | k in filters :: FilterToDict(filters[k]);
    forall k | k in given
      ensures FilterOf(given[k]) == Some(filters[k])
    {
      FilterRoundTrip(filters[k]);
    }
    FilterMapDecodesTo(given, filters);
  }

  lemma PagingRoundTrip(p: Paging)
    ensures PagingOf(PagingToDict(p)) == Some(p)
  {
    assert OptIntOf(OptIntValue(p.onPage)) == Some(p.onPage);
    assert OptIntOf(OptIntValue(p.perPage)) == Some(p.perPage);
  }

  lemma SortListRoundTrip(sort: seq<Sort>)
    ensures DecodeSort(SortListToValue(sort)) == Some(sort)
  {
    var given := SortListToValue(sort).items;
    assert forall i :: 0 <= i < |given| ==> SortOf(given[i]) == Some(sort[i]);
    assert DecodeSortList(given).value == sort;
  }

  /** An explicit `value2: None` decodes as if `value2` had been left out. */
  lemma FilterValue2DefaultsToNone(fields: map<string, Value>)
    requires "value2" !in fields
    ensures FilterOf(Dict(fields["value2" := Null])) == FilterOf(Dict(fields))
    ensures FilterOf(Dict(fields)).Some? ==> FilterOf(Dict(fields)).value.value2 == None
  {
  }

  /**
   * Each paging field left out decodes as its default: `pager_on` as false,
   * `on_page` and `per_page` as `None`.
   */
  lemma PagingFieldsDefault(fields: map<string, Value>)
    ensures "pager_on" !in fields ==> PagingOf(Dict(fields["pager_on" := Bool(false)])) == PagingOf(Dict(fields))
    ensures "on_page" !in fields ==> PagingOf(Dict(fields["on_page" := Null])) == PagingOf(Dict(fields))
    ensures "per_page" !in fields ==> PagingOf(Dict(fields["per_page" := Null])) == PagingOf(Dict(fields))
  {
  }

  /** The paging the API tests post, without `pager_on`, decodes with paging off. */
  lemma ApiPostPagingDecode()
    ensures PagingOf(Dict(map["per_page" := Int(50), "on_page" := Int(1)])) == Some(Paging(false, Some(1), Some(50)))
  {
    var fields := map["per_page" := Int(50), "on_page" := Int(1)];
    PagingFieldsDefault(fields);
    assert fields["pager_on" := Bool(false)] == PagingToDict(Paging(false, Some(1), Some(50))).fields;
    PagingRoundTrip(Paging(false, Some(1), Some(50)));
  }

  // ---------------------------------------------------------------------
  // `to_args`

  /** The value of a `sortN` argument: the key, prefixed with `-` when descending. */
  function SortArg(s: Sort): (r: string)
    ensures |r| == |s.key| + (if s.flagDesc then 1 else 0)
    ensures s.flagDesc ==> r[0] == '-'
  {
    (if s.flagDesc then "-" else "") + s.key
  }

  /** Whether `to_args` emits key `k` for settings `s`. */
  predicate Emits(s: GridSettings, k: ArgKey)
  {
    match k
    case Op(c) => c in s.filters
    case V1(c) => c in s.filters
    case V2(c) => c in s.filters && s.filters[c].value2.Some?
    case SortAt(i) => 1 <= i <= |s.sort|
    case _ => true
  }

  /** The keys `to_args` emits, enumerated. */
  function EmittedKeys(s: GridSettings): set<ArgKey>
  {
    {Search, OnPage, PerPage, ExportTo}
    + (set c | c in s.filters :: Op(c))
    + (set c | c in s.filters :: V1(c))
    + (set c | c in s.filters && s.filters[c].value2.Some? :: V2(c))
    + (set i: nat | 1 <= i <= |s.sort| :: SortAt(i))
  }

  /** The value `to_args` writes under key `k`. */
  function ArgValue(s: GridSettings, k: ArgKey): Value
  {
    match k
    case Search => OptStrValue(s.searchExpr)
    case OnPage => OptIntValue(s.paging.onPage)
    case PerPage => OptIntValue(s.paging.perPage)
    case ExportTo => OptStrValue(s.exportTo)
    case Op(c) => if c in s.filters then Str(s.filters[c].op) else Null
    case V1(c) => if c in s.filters then OptStrValue(s.filters[c].value1) else Null
    case V2(c) => if c in s.filters && s.filters[c].value2.Some? then Str(s.filters[c].value2.value) else Null
    case SortAt(i) => if 1 <= i <= |s.sort| then Str(SortArg(s.sort[i - 1])) else Null
  }

  /** `GridSettings.to_args()`, with structured keys; `Render` gives the string-keyed dict. */
  function ToArgs(s: GridSettings): (r: map<ArgKey, Value>)
    ensures Search in r && OnPage in r && PerPage in r && ExportTo in r
  {
    map k | k in EmittedKeys(s) :: ArgValue(s, k)
  }

  lemma EmittedKeysExactly(s: GridSettings, k: ArgKey)
    ensures k in EmittedKeys(s) <==> Emits(s, k)
  {
    match k
    case Op(c) => assert c in s.filters ==> Op(c) in (set c | c in s.filters :: Op(c));
    case V1(c) => assert c in s.filters ==> V1(c) in (set c | c in s.filters :: V1(c));
    case V2(c) =>
      assert c in s.filters && s.filters[c].value2.Some? ==>
        V2(c) in (set c | c in s.filters && s.filters[c].value2.Some? :: V2(c));
    case SortAt(i) => assert 1 <= i <= |s.sort| ==> SortAt(i) in (set i: nat | 1 <= i <= |s.sort| :: SortAt(i));
    case _ =>
  }

  /** `search`, `onpage`, `perpage` and `export_to` are always emitted, as None when unset. */
  lemma ToArgsFixedKeys(s: GridSettings)
    ensures Search in ToArgs(s) && ToArgs(s)[Search] == OptStrValue(s.searchExpr)
    ensures OnPage in ToArgs(s) && ToArgs(s)[OnPage] == OptIntValue(s.paging.onPage)
    ensures PerPage in ToArgs(s) && ToArgs(s)[PerPage] == OptIntValue(s.paging.perPage)
    ensures ExportTo in ToArgs(s) && ToArgs(s)[ExportTo] == OptStrValue(s.exportTo)
  {
  }

  /** Each filter emits `op(c)` and `v1(c)`, and `v2(c)` exactly when its `value2` is set. */
  lemma ToArgsFilterKeys(s: GridSettings, column: string)
    ensures Op(column) in ToArgs(s) <==> column in s.filters
    ensures V1(column) in ToArgs(s) <==> column in s.filters
    ensures V2(column) in ToArgs(s) <==> column in s.filters && s.filters[column].value2.Some?
    ensures column in s.filters ==>
      && ToArgs(s)[Op(column)] == Str(s.filters[column].op)
      && ToArgs(s)[V1(column)] == OptStrValue(s.filters[column].value1)
    ensures column in s.filters && s.filters[column].value2.Some? ==>
      ToArgs(s)[V2(column)] == Str(s.filters[column].value2.value)
  {
    EmittedKeysExactly(s, Op(column));
    EmittedKeysExactly(s, V1(column));
    EmittedKeysExactly(s, V2(column));
  }

  /** The sort list is emitted as `sort1`, `sort2`, ... in list order. */
  lemma ToArgsSortKeys(s: GridSettings, position: nat)
    ensures SortAt(position) in ToArgs(s) <==> 1 <= position <= |s.sort|
    ensures 1 <= position <= |s.sort| ==> ToArgs(s)[SortAt(position)] == Str(SortArg(s.sort[position - 1]))
  {
    EmittedKeysExactly(s, SortAt(position));
  }

  /** Nothing else is emitted. */
  lemma ToArgsNothingElse(s: GridSettings, k: ArgKey)
    requires k in ToArgs(s)
    ensures k.Op? || k.V1? ==> k.column in s.filters
    ensures k.V2? ==> k.column in s.filters && s.filters[k.column].value2.Some?
    ensures k.SortAt? ==> 1 <= k.position <= |s.sort|
  {
    EmittedKeysExactly(s, k);
  }

  /** The string-keyed dict has no `pager_on` key, whatever the settings. */
  lemma ToArgsHasNoPagerOn(s: GridSettings)
    ensures "pager_on" !in Render(ToArgs(s))
  {
    forall k: ArgKey
      ensures KeyString(k) != "pager_on"
    {
      KeyStringTag(k);
      assert "pager_on"[..2] == "pa";
    }
  }

  /** A leading `-` marks a descending entry, unless the key itself starts with `-`. */
  lemma SortArgPrefix(s: Sort)
    ensures (|SortArg(s)| > 0 && SortArg(s)[0] == '-') <==> (s.flagDesc || (|s.key| > 0 && s.key[0] == '-'))
    ensures s.flagDesc ==> SortArg(s)[1..] == s.key
    ensures !s.flagDesc ==> SortArg(s) == s.key
  {
  }

  /** For keys that do not start with `-`, the encoding of a sort entry determines the entry. */
  lemma SortArgInjective(a: Sort, b: Sort)
    requires |a.key| == 0 || a.key[0] != '-'
    requires |b.key| == 0 || b.key[0] != '-'
    requires SortArg(a) == SortArg(b)
    ensures a == b
  {
    SortArgPrefix(a);
    SortArgPrefix(b);
  }

  /** A key that starts with `-` makes an ascending entry look like a descending one. */
  lemma SortArgAmbiguousForDashKeys()
    ensures SortArg(Sort("-baz", false)) == SortArg(Sort("baz", true))
  {
  }

  // ---------------------------------------------------------------------
  // The expectations of webgrid/tests/test_types.py

  /** The fixture `ok_values`. */
  function OkValues(): map<string, Value>
  {
    map[
      "search_expr" := Str("foo"),
      "filters" := Dict(map[
        "test" := Dict(map["op" := Str("eq"), "value1" := Str("toast"), "value2" := Str("taft")]),
        "test2" := Dict(map["op" := Str("in"), "value1" := Str("tarp"), "value2" := Null])]),
      "paging" := Dict(map["pager_on" := Bool(true), "on_page" := Int(2), "per_page" := Int(20)]),
      "sort" := List([
        Dict(map["key" := Str("bar"), "flag_desc" := Bool(false)]),
        Dict(map["key" := Str("baz"), "flag_desc" := Bool(true)])])]
  }

  function OkSettings(): GridSettings
  {
    GridSettings(
      Some("foo"),
      map["test" := Filter("eq", Some("toast"), Some("taft")), "test2" := Filter("in", Some("tarp"), None)],
      Paging(true, Some(2), Some(20)),
      [Sort("bar", false), Sort("baz", true)],
      None)
  }

  lemma OkFiltersDecode()
    ensures DecodeFilterMap(OkValues()["filters"]) == Some(OkSettings().filters)
  {
    var given := OkValues()["filters"].fields;
    assert FilterOf(given["test"]) == Some(Filter("eq", Some("toast"), Some("taft")));
    assert FilterOf(given["test2"]) == Some(Filter("in", Some("tarp"), None));
    assert (map k | k in given :: FilterOf(given[k]).value) == OkSettings().filters;
  }

  lemma OkSortDecode()
    ensures DecodeSort(OkValues()["sort"]) == Some(OkSettings().sort)
  {
    var sorts := OkValues()["sort"].items;
    assert SortOf(sorts[0]) == Some(Sort("bar", false));
    assert SortOf(sorts[1]) == Some(Sort("baz", true));
    var r := DecodeSortList(sorts);
    assert r.Some? && |r.value| == 2;
    assert r.value[0] == Sort("bar", false) && r.value[1] == Sort("baz", true);
    assert r.value == OkSettings().sort;
  }

  lemma OkPagingDecode()
    ensures PagingOf(OkValues()["paging"]) == Some(OkSettings().paging)
  {
  }

  lemma TestFromDict()
    ensures FromDict(OkValues()) == Some(OkSettings())
  {
    var d := OkValues();
    OkFiltersDecode();
    OkSortDecode();
    OkPagingDecode();
  }

  lemma TestFromDictMissingKeys()
    ensures FromDict(map[]) == Some(DefaultSettings)
  {
    assert DecodeFilterMap(Dict(map[])) == Some(map[]);
  }

  /** The keys of the dict `test_to_args` expects (`OkArgKeysSpelling` gives their spelling). */
  function OkArgKeys(): set<ArgKey>
  {
    {Search, OnPage, PerPage, Op("test"), V1("test"), V2("test"), Op("test2"), V1("test2"),
     SortAt(1), SortAt(2), ExportTo}
  }

  /** Every key `to_args` emits for the reference settings is one of `OkArgKeys`. */
  lemma OkToArgsOnlyExpected()
    ensures forall k | k in ToArgs(OkSettings()) :: k in OkArgKeys()
  {
    var s := OkSettings();
    forall k | k in ToArgs(s) ensures k in OkArgKeys() {
      ToArgsNothingElse(s, k);
      match k
      case Op(c) => assert c == "test" || c == "test2";
      case V1(c) => assert c == "test" || c == "test2";
      case V2(c) => assert c == "test";
      case SortAt(i) => assert i == 1 || i == 2;
      case _ =>
    }
  }

  lemma OkToArgsFilters()
    ensures var r := ToArgs(OkSettings());
      Op("test") in r && V1("test") in r && V2("test") in r && Op("test2") in r && V1("test2") in r
      && r[Op("test")] == Str("eq") && r[V1("test")] == Str("toast") && r[V2("test")] == Str("taft")
      && r[Op("test2")] == Str("in") && r[V1("test2")] == Str("tarp")
  {
    ToArgsFilterKeys(OkSettings(), "test");
    ToArgsFilterKeys(OkSettings(), "test2");
  }

  lemma OkToArgsSort()
    ensures var r := ToArgs(OkSettings());
      SortAt(1) in r && SortAt(2) in r && r[SortAt(1)] == Str("bar") && r[SortAt(2)] == Str("-baz")
  {
    var s := OkSettings();
    ToArgsSortKeys(s, 1);
    ToArgsSortKeys(s, 2);
    assert SortArg(s.sort[1]) == "-baz";
  }

  lemma OkToArgsKeys()
    ensures ToArgs(OkSettings()).Keys == OkArgKeys()
  {
    ToArgsFixedKeys(OkSettings());
    OkToArgsFilters();
    OkToArgsSort();
    OkToArgsOnlyExpected();
  }

  /** The spelling of the keys in `OkArgKeys`, as the test writes them. */
  lemma OkArgKeysSpelling()
    ensures KeyString(Search) == "search" && KeyString(OnPage) == "onpage" && KeyString(PerPage) == "perpage"
    ensures KeyString(ExportTo) == "export_to"
    ensures KeyString(Op("test")) == "op(test)" && KeyString(V1("test")) == "v1(test)" && KeyString(V2("test")) == "v2(test)"
    ensures KeyString(Op("test2")) == "op(test2)" && KeyString(V1("test2")) == "v1(test2)"
    ensures KeyString(SortAt(1)) == "sort1" && KeyString(SortAt(2)) == "sort2"
  {
  }

  /** `GridSettings.from_dict(...).to_args()` on the reference input. */
  lemma TestToArgs()
    ensures FromDict(OkValues()) == Some(OkSettings())
    ensures var r := ToArgs(OkSettings());
      r.Keys == OkArgKeys()
      && r[Search] == Str("foo") && r[OnPage] == Int(2) && r[PerPage] == Int(20) && r[ExportTo] == Null
      && r[Op("test")] == Str("eq") && r[V1("test")] == Str("toast") && r[V2("test")] == Str("taft")
      && r[Op("test2")] == Str("in") && r[V1("test2")] == Str("tarp")
      && r[SortAt(1)] == Str("bar") && r[SortAt(2)] == Str("-baz")
  {
    TestFromDict();
    ToArgsFixedKeys(OkSettings());
    OkToArgsFilters();
    OkToArgsSort();
    OkToArgsKeys();
  }

  /** The string keys of the dict `test_to_args` expects. */
  function OkArgStrings(): set<string>
  {
    {"search", "onpage", "perpage", "op(test)", "v1(test)", "v2(test)", "op(test2)", "v1(test2)",
     "sort1", "sort2", "export_to"}
  }

  lemma OkSpellingsListed()
    ensures forall k | k in OkArgKeys() :: KeyString(k) in OkArgStrings()
  {
    OkArgKeysSpelling();
  }

  lemma OkRenderedOnlyListed()
    ensures forall key | key in Render(ToArgs(OkSettings())) :: key in OkArgStrings()
  {
    OkToArgsKeys();
    OkSpellingsListed();
    forall key | key in Render(ToArgs(OkSettings())) ensures key in OkArgStrings() {
      RenderedKeySpellsArg(ToArgs(OkSettings()), key);
    }
  }

  /** The fixed keys of an argument map under their query-string spelling. */
  lemma RenderedFixed(args: map<ArgKey, Value>)
    requires Search in args && OnPage in args && PerPage in args && ExportTo in args
    ensures var r := Render(args);
      && "search" in r && r["search"] == args[Search]
      && "onpage" in r && r["onpage"] == args[OnPage]
      && "perpage" in r && r["perpage"] == args[PerPage]
      && "export_to" in r && r["export_to"] == args[ExportTo]
  {
    assert KeyString(Search) == "search";
    assert KeyString(OnPage) == "onpage";
    assert KeyString(PerPage) == "perpage";
    assert KeyString(ExportTo) == "export_to";
    RenderAt(args, Search);
    RenderAt(args, OnPage);
    RenderAt(args, PerPage);
    RenderAt(args, ExportTo);
  }
  /** The filter keys of column `test`, as `test_to_args` spells them. */
  lemma RenderedTest(args: map<ArgKey, Value>)
    requires Op("test") in args && V1("test") in args && V2("test") in args
    ensures var r := Render(args);
      && "op(test)" in r && r["op(test)"] == args[Op("test")]
      && "v1(test)" in r && r["v1(test)"] == args[V1("test")]
      && "v2(test)" in r && r["v2(test)"] == args[V2("test")]
  {
    assert KeyString(Op("test")) == "op(test)";
    assert KeyString(V1("test")) == "v1(test)";
    assert KeyString(V2("test")) == "v2(test)";
    RenderAt(args, Op("test"));
    RenderAt(args, V1("test"));
    RenderAt(args, V2("test"));
  }
  /** The filter keys of column `test2`. */
  lemma RenderedTest2(args: map<ArgKey, Value>)
    requires Op("test2") in args && V1("test2") in args
    ensures var r := Render(args);
      && "op(test2)" in r && r["op(test2)"] == args[Op("test2")]
      && "v1(test2)" in r && r["v1(test2)"] == args[V1("test2")]
  {
    assert KeyString(Op("test2")) == "op(test2)";
    assert KeyString(V1("test2")) == "v1(test2)";
    RenderAt(args, Op("test2"));
    RenderAt(args, V1("test2"));
  }
  /** The first two sort keys. */
  lemma RenderedSorts(args: map<ArgKey, Value>)
    requires SortAt(1) in args && SortAt(2) in args
    ensures var r := Render(args);
      && "sort1" in r && r["sort1"] == args[SortAt(1)]
      && "sort2" in r && r["sort2"] == args[SortAt(2)]
  {
    assert KeyString(SortAt(1)) == "sort1";
    assert KeyString(SortAt(2)) == "sort2";
    RenderAt(args, SortAt(1));
    RenderAt(args, SortAt(2));
  }
  /** A string-keyed map holding each expected spelling holds all of `OkArgStrings`. */
  lemma MembersListed(r: map<string, Value>)
    requires "search" in r && "onpage" in r && "perpage" in r && "export_to" in r
    requires "op(test)" in r && "v1(test)" in r && "v2(test)" in r && "op(test2)" in r && "v1(test2)" in r
    requires "sort1" in r && "sort2" in r
    ensures OkArgStrings() <= r.Keys
  { }
  /** Any argument map with the expected structured keys renders with the expected string keys. */
  lemma SpelledKeysRendered(args: map<ArgKey, Value>)
    requires OkArgKeys() <= args.Keys
    ensures OkArgStrings() <= Render(args).Keys
  {
    RenderedFixed(args);
    RenderedTest(args);
    RenderedTest2(args);
    RenderedSorts(args);
    MembersListed(Render(args));
  }

  lemma OkRenderedAllListed()
    ensures OkArgStrings() <= Render(ToArgs(OkSettings())).Keys
  {
    OkToArgsKeys();
    SpelledKeysRendered(ToArgs(OkSettings()));
  }

  lemma OkRenderedKeys()
    ensures Render(ToArgs(OkSettings())).Keys == OkArgStrings()
  {
    OkRenderedOnlyListed();
    OkRenderedAllListed();
  }

  /** The values of the string-keyed dict `test_to_args` expects. */
  lemma OkRenderedLookups()
    ensures var r := Render(ToArgs(OkSettings()));
      && "search" in r && "onpage" in r && "perpage" in r && "export_to" in r
      && "op(test)" in r && "v1(test)" in r && "v2(test)" in r && "op(test2)" in r && "v1(test2)" in r
      && "sort1" in r && "sort2" in r
      && r["search"] == Str("foo") && r["onpage"] == Int(2) && r["perpage"] == Int(20)
      && r["op(test)"] == Str("eq") && r["v1(test)"] == Str("toast") && r["v2(test)"] == Str("taft")
      && r["op(test2)"] == Str("in") && r["v1(test2)"] == Str("tarp")
      && r["sort1"] == Str("bar") && r["sort2"] == Str("-baz") && r["export_to"] == Null
  {
    var args := ToArgs(OkSettings());
    ToArgsFixedKeys(OkSettings());
    OkToArgsFilters();
    OkToArgsSort();
    RenderedFixed(args);
    RenderedTest(args);
    RenderedTest2(args);
    RenderedSorts(args);
  }

  /** A rendered argument map without the structured key `v2(test2)` has no such string key. */
  lemma RenderedNoV2Test2(args: map<ArgKey, Value>)
    requires V2("test2") !in args
    ensures "v2(test2)" !in Render(args)
  {
    assert KeyString(V2("test2")) == "v2(test2)";
    RenderAt(args, V2("test2"));
  }

  /** The filter without a `value2` emits no `v2` key. */
  lemma OkRenderedNoV2()
    ensures "v2(test2)" !in Render(ToArgs(OkSettings()))
  {
    ToArgsFilterKeys(OkSettings(), "test2");
    RenderedNoV2Test2(ToArgs(OkSettings()));
  }

  /** The paging flag is a setting, not an argument: no rendered map has a `pager_on` key. */
  lemma OkRenderedNoPagerOn()
    ensures "pager_on" !in Render(ToArgs(OkSettings()))
  {
    assert "pager_on"[..2] == "pa";
    NoKeySpells(ToArgs(OkSettings()), "pager_on");
  }

  /** `test_to_args` on the string-keyed dict: exactly the expected keys, with the expected values. */
  lemma TestToArgsRendered()
    ensures var r := Render(ToArgs(OkSettings()));
      && r.Keys == OkArgStrings()
      && r["search"] == Str("foo") && r["onpage"] == Int(2) && r["perpage"] == Int(20)
      && r["op(test)"] == Str("eq") && r["v1(test)"] == Str("toast") && r["v2(test)"] == Str("taft")
      && r["op(test2)"] == Str("in") && r["v1(test2)"] == Str("tarp")
      && r["sort1"] == Str("bar") && r["sort2"] == Str("-baz") && r["export_to"] == Null
      && "v2(test2)" !in r && "pager_on" !in r
  {
    OkRenderedKeys();
    OkRenderedLookups();
    OkRenderedNoV2();
    OkRenderedNoPagerOn();
  }
}
