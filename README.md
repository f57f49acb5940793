# webgrid: settings codecs, API dispatch and test helpers in Dafny

webgrid builds data grids (filterable, sortable, paged tables) for Flask
applications. This project models the parts of it that are not the query
engine or the renderers:

- `Types` (`types.dfy`): the response records `Filter`, `Paging`, `Sort`,
  `Meta` and `Grid` of `webgrid/types.py`, with their decoders
  `Meta.from_dict` and `Grid.from_dict`. Input dicts are `PyValues.Value`
  (a JSON-like universe of None, bool, int, str, list and str-keyed dict).
  Python errors are `PyValues.PyError`. Dataclasses do not enforce their
  annotations, so a decoded field holds whatever the input gave. What fails
  is a call with the wrong set of keyword fields (`TypeError`), a missing
  key (`KeyError`), or `.items()` on a non-dict (`AttributeError`). The
  errors come in the order the keyword arguments are evaluated.
- `Settings` (`settings.dfy`): the `GridSettings` codec that
  `webgrid/tests/test_types.py` pins down.
  - `FromDict` reads the JSON shape, ignores unknown top-level keys, and
    gives missing keys their defaults.
  - `ToArgs` writes the flat request-argument form. Its keys are
    `search`, `onpage`, `perpage`, `op(c)`, `v1(c)`, `v2(c)`, `sort1`…`sortN`
    and `export_to`; a descending sort is written with a leading `-`.
  - The round trip through the JSON shape is proved.
  - The tests' three expectations are proved as lemmas about the fixtures.
- `ArgKeys` (`arg_keys.dfy`): the argument keys as a datatype, and their
  spelling `KeyString`. `KeyString` is proved injective. That is why
  `Render`, which turns a structured-key map into the string-keyed dict,
  neither loses nor merges entries.
- `FlaskApi` (`flask_api.dfy`): `WebGridAPI` from `webgrid/flask.py`.
  - It is a class whose registry is a `map` field. `RegisterGrid` refuses
    duplicates.
  - `ApiViewMethod` builds a fresh `Grid` object, attaches the manager,
    checks authorisation and applies the arguments, in that order, and
    records the steps it takes.
  - The export path maps a render-limit failure to the error JSON.
  - It also models `file_as_response` and its attachment flag.
  - The class models the evidently intended behaviour. The code as written
    is modelled by separate functions; see "## Findings".
- `Testing` (`testing.dfy`): the helpers of `webgrid/testing.py`.
  - `assert_list_equal` is a loop with invariants. It reports unequal
    lengths first, then the first differing index.
  - The expected sheet shape of `assert_rendered_xls_matches`.
  - The query arguments of `check_filter`, a loop that appends, and of
    `check_sort`. Both are tied to the same key spelling as `to_args`.

`Wrappers` (`wrappers.dfy`) holds `Option` and `Result`.

Where the code and the design description differ, the model follows the
code. In `webgrid/types.py`, `Meta.sort` is a dict from name to `Sort`, not
an ordered list. `Meta.paging` has no `pager_on` field. `filters` is a list.
`GridSettings` has the other shape, so the two are kept as separate
datatypes.

The implementation of `GridSettings` is not part of this model: only its
tests are. The decoding rules for inputs those tests do not exercise are
assumptions, listed under "## Left out". This is why the two decoders treat
a wrongly typed field differently. `Types` follows code that can be read: a
dataclass stores whatever it is given. `Settings` follows a typed codec
whose code is not shown, so a value of the wrong type is taken to make
decoding fail.

## Model

| member | source | states |
|---|---|---|
| `Types.FilterOf` | webgrid/types.py:5-9 | `Filter(**entry)` succeeds exactly on a dict with exactly the fields `op`, `value1`, `value2`, whose dict shape is then the entry; any other entry is a `TypeError` |
| `Types.PagingOf` | webgrid/types.py:12-15 | `Paging(**entry)` succeeds exactly on a dict with exactly `per_page` and `on_page`, whose dict shape is then the entry; otherwise a `TypeError` |
| `Types.SortOf` | webgrid/types.py:18-21 | `Sort(**entry)` succeeds exactly on a dict with exactly `key` and `flag_desc`, whose dict shape is then the entry; otherwise a `TypeError` |
| `Types.IterateFilters` | webgrid/types.py:35 | iterating a non-list gives no filters only for an empty dict or an empty string; a value that is not a list, dict or string cannot be iterated; every failure is a `TypeError` |
| `Types.DecodeSortDict` | webgrid/types.py:37 | a non-dict fails with `AttributeError` on `items`; a dict decodes exactly when every entry has exactly the `Sort` fields, keeping its keys and building each entry from its value; a failing entry is a `TypeError` |
| `Types.DecodeFilters` | webgrid/types.py:35 | the filter list decodes exactly when every entry has exactly the fields `op`, `value1`, `value2`; the result has the same length and order, element i is built from entry i, and failure is a `TypeError` |
| `Types.MetaFromDict` | webgrid/types.py:31-38 | succeeds exactly on dicts carrying `search_expr`, `filters`, `paging` and `sort` with well-formed entries; `search_expr` is copied verbatim; filters keep length, order and fields; paging takes `per_page`/`on_page` unchanged; sort has exactly the input's keys, each built from its entry; a non-dict is a `TypeError`; a missing key is a `KeyError` naming a missing field, and for each of `search_expr`, `filters`, `paging`, `sort` the contract states when that key is the one reported: it is missing and every argument evaluated before it succeeded |
| `Types.GridFromDict` | webgrid/types.py:46-48 | succeeds exactly when `meta` and `records` are present and `meta` decodes; `meta` is `Meta.from_dict(data['meta'])` and `records` is `data['records']` unchanged; a `meta` error comes before a missing `records` |
| `Types.MetaRoundTrip` | webgrid/types.py:5-38 | decoding the dict shape of any `Meta` gives it back |
| `Types.GridRoundTrip` | webgrid/types.py:41-48 | decoding the dict shape of any `Grid` gives it back |
| `Types.MetaFromDictLosesNothing` | webgrid/types.py:31-38 | a dict that decodes, with its filters given as a list, is the dict shape of its decoding on the four fields `Meta` reads |
| `Types.FiltersLoseNothing` | webgrid/types.py:35 | filter entries with exactly the dataclass fields are the dict shapes of the filters built from them |
| `Types.PagingLosesNothing` | webgrid/types.py:36 | a paging entry with exactly the dataclass fields is the dict shape of the paging built from it |
| `Types.SortLosesNothing` | webgrid/types.py:37 | sort entries with exactly the dataclass fields are the dict shapes of the sorts built from them, under the same keys |
| `Settings.FilterOf` | webgrid/tests/test_types.py:9-10 | a decoded filter comes from a dict with no keys beyond `op`, `value1`, `value2`, holding its `op` and `value1`, and its `value2` or nothing for `None`; a dict lacking `op` or `value1` does not decode |
| `Settings.PagingOf` | webgrid/tests/test_types.py:12 | a decoded paging comes from a dict with no keys beyond `pager_on`, `on_page`, `per_page`, each holding the decoded value or absent for its default; `{}` decodes to the default paging |
| `Settings.PagingFieldsDefault` | webgrid/tests/test_types.py:29-34 | a paging dict without `pager_on` decodes as if it held `false`, and one without `on_page` or `per_page` as if it held `None` |
| `Settings.ApiPostPagingDecode` | webgrid/tests/test_api.py:63 | the paging the API tests post, `per_page` 50 and `on_page` 1 without `pager_on`, decodes with paging off, page 1, 50 per page |
| `Settings.SortOf` | webgrid/tests/test_types.py:13 | a sort entry decodes exactly when it is the dict shape of some `Sort`, and then it is the shape of the result |
| `Settings.DecodeFilterMap` | webgrid/tests/test_types.py:8-11 | the filter dict decodes exactly when it is a dict whose every entry decodes; the result has the same keys, each mapped to its entry's decoding |
| `Settings.DecodeSort` | webgrid/tests/test_types.py:13 | a decoded sort list has the input's length, each entry the decoding of the input entry at that position; a non-list does not decode |
| `Settings.DecodeSortList` | webgrid/tests/test_types.py:13-25 | the sort list decodes exactly when every entry does; the result keeps length and order |
| `Settings.FromDict` | webgrid/tests/test_types.py:16-36 | decoding succeeds exactly when every present component decodes; each missing key takes its default (`None`, `{}`, unset paging with `pager_on` false, `[]`, `None`); `search_expr` and `export_to` are echoed; filters keep their keys and sort entries keep their order |
| `Settings.FromDictRoundTrip` | webgrid/tests/test_types.py:5-27 | every `GridSettings` survives the trip through its JSON shape |
| `Settings.FilterRoundTrip` | webgrid/tests/test_types.py:9-10 | every filter survives the trip through its JSON shape |
| `Settings.FilterMapDecodesTo` | webgrid/tests/test_types.py:8-11 | a filter dict whose every entry decodes to the filter under the same key in a map with the same keys decodes to that map |
| `Settings.FilterMapRoundTrip` | webgrid/tests/test_types.py:8-11 | every filter map survives the trip through its JSON shape |
| `Settings.PagingRoundTrip` | webgrid/tests/test_types.py:12 | every paging value survives the trip through its JSON shape |
| `Settings.SortListRoundTrip` | webgrid/tests/test_types.py:13 | every sort list survives the trip through its JSON shape, in order |
| `Settings.FilterValue2DefaultsToNone` | webgrid/tests/test_types.py:10-22 | an explicit `value2: None` decodes like a missing `value2`, and both give `None` |
| `Settings.ToArgs` | webgrid/tests/test_types.py:38-52 | the argument form always holds `search`, `onpage`, `perpage` and `export_to`; what it holds beyond that is stated by the lemmas below |
| `Settings.EmittedKeysExactly` | webgrid/tests/test_types.py:38-52 | `to_args` emits a key exactly when the settings call for it |
| `Settings.ToArgsFixedKeys` | webgrid/tests/test_types.py:41-43 | `search`, `onpage`, `perpage` and `export_to` are always emitted, carrying `search_expr`, `on_page`, `per_page` and `export_to`, with `None` when unset |
| `Settings.ToArgsFilterKeys` | webgrid/tests/test_types.py:44-48 | for each filter `op(c)` and `v1(c)` are emitted, and `v2(c)` exactly when `value2` is not `None`; for a column without a filter none of them is |
| `Settings.ToArgsSortKeys` | webgrid/tests/test_types.py:49-50 | `sortN` is emitted exactly for 1 ≤ N ≤ the number of sort entries, carrying entry N-1's key with `-` when descending |
| `Settings.ToArgsNothingElse` | webgrid/tests/test_types.py:38-52 | every emitted key belongs to a filter, a sort position or the fixed keys |
| `Settings.ToArgsHasNoPagerOn` | webgrid/tests/test_types.py:38-52 | the rendered dict never has a `pager_on` key |
| `Settings.SortArg` | webgrid/tests/test_types.py:49-50 | a `sortN` value is as long as the key, one character longer when descending, and a descending value starts with `-`; `SortArgPrefix` states that the key follows |
| `Settings.SortArgPrefix` | webgrid/tests/test_types.py:49-50 | a sort value starts with `-` exactly when the entry is descending or its key starts with `-`; the key follows the prefix |
| `Settings.SortArgInjective` | webgrid/tests/test_types.py:49-50 | for keys not starting with `-`, the sort value determines the entry |
| `Settings.SortArgAmbiguousForDashKeys` | webgrid/tests/test_types.py:49-50 | an ascending key `-baz` and a descending key `baz` are encoded alike |
| `Settings.OkFiltersDecode` | webgrid/tests/test_types.py:8-11 | the fixture's filters decode to the expected `Filter` records, the second with `value2` `None` |
| `Settings.OkSortDecode` | webgrid/tests/test_types.py:13 | the fixture's sort list decodes to the expected entries, in order |
| `Settings.OkPagingDecode` | webgrid/tests/test_types.py:12 | the fixture's paging decodes to `pager_on` true, page 2, 20 per page |
| `Settings.TestFromDict` | webgrid/tests/test_types.py:16-27 | `test_from_dict`: the fixture decodes to the expected settings, with `export_to` `None` |
| `Settings.TestFromDictMissingKeys` | webgrid/tests/test_types.py:29-36 | `test_from_dict_missing_keys`: `{}` decodes to the all-default settings |
| `Settings.OkToArgsOnlyExpected` | webgrid/tests/test_types.py:40-52 | the fixture emits no key outside the expected eleven |
| `Settings.OkToArgsFilters` | webgrid/tests/test_types.py:44-48 | the fixture's filter arguments are `op(test)=eq`, `v1(test)=toast`, `v2(test)=taft`, `op(test2)=in`, `v1(test2)=tarp` |
| `Settings.OkToArgsSort` | webgrid/tests/test_types.py:49-50 | the fixture's sort arguments are `sort1=bar` and `sort2=-baz` |
| `Settings.OkToArgsKeys` | webgrid/tests/test_types.py:40-52 | the fixture emits exactly the expected eleven keys |
| `Settings.OkArgKeysSpelling` | webgrid/tests/test_types.py:41-51 | the expected keys are spelt `search`, `onpage`, `perpage`, `op(test)`, …, `sort2`, `export_to` |
| `Settings.TestToArgs` | webgrid/tests/test_types.py:38-52 | `test_to_args`: decoding the fixture and writing it out gives exactly the expected keys with the expected values, `export_to` present and `None` |
| `Settings.RenderedFixed` | webgrid/tests/test_types.py:41-43 | any argument map holding the four fixed keys renders them as `search`, `onpage`, `perpage`, `export_to` with their values |
| `Settings.RenderedTest` | webgrid/tests/test_types.py:44-46 | any argument map holding the filter keys of column `test` renders them as `op(test)`, `v1(test)`, `v2(test)` with their values |
| `Settings.RenderedTest2` | webgrid/tests/test_types.py:47-48 | the same for `op(test2)` and `v1(test2)` |
| `Settings.RenderedSorts` | webgrid/tests/test_types.py:49-50 | any argument map holding the first two sort keys renders them as `sort1` and `sort2` with their values |
| `Settings.MembersListed` | webgrid/tests/test_types.py:40-52 | a string-keyed dict holding each of the eleven expected spellings holds the whole expected key set |
| `Settings.SpelledKeysRendered` | webgrid/tests/test_types.py:40-52 | an argument map holding the eleven expected structured keys renders with all eleven expected string keys |
| `Settings.OkSpellingsListed` | webgrid/tests/test_types.py:40-52 | each expected structured key is spelt as one of the expected string keys |
| `Settings.OkRenderedOnlyListed` | webgrid/tests/test_types.py:40-52 | the fixture's string-keyed dict has no key outside the expected eleven |
| `Settings.OkRenderedAllListed` | webgrid/tests/test_types.py:40-52 | the fixture's string-keyed dict has every one of the expected eleven keys |
| `Settings.OkRenderedKeys` | webgrid/tests/test_types.py:40-52 | the fixture's string-keyed dict has exactly the expected eleven keys |
| `Settings.OkRenderedLookups` | webgrid/tests/test_types.py:41-51 | the fixture's string-keyed dict maps `search` to `foo`, `onpage` to 2, …, `sort2` to `-baz` and `export_to` to `None` |
| `Settings.OkRenderedNoV2` | webgrid/tests/test_types.py:47-48 | the filter whose `value2` is `None` emits no `v2(test2)` key |
| `Settings.OkRenderedNoPagerOn` | webgrid/tests/test_types.py:40-52 | the fixture's string-keyed dict has no `pager_on` key, although the settings page |
| `Settings.TestToArgsRendered` | webgrid/tests/test_types.py:38-52 | `test_to_args` as the test writes it: the string-keyed dict equals the expected literal dict, key set and every value, with no `v2(test2)` and no `pager_on` |
| `ArgKeys.KeyString` | webgrid/tests/test_types.py:40-52 | a filter key's spelling is the column between a three-character prefix and `)`; a sort key's spelling is `sort` followed by the decimal position |
| `ArgKeys.Render` | webgrid/tests/test_types.py:40-52 | every entry of the structured map appears in the string-keyed dict under its spelling, with its value |
| `ArgKeys.RenderedKeySpellsArg` | webgrid/tests/test_types.py:40-52 | every key of the string-keyed dict spells a key of the structured map |
| `ArgKeys.NoKeySpells` | webgrid/tests/test_types.py:40-52 | a string that does not start with the tag of any kind of key is absent from every rendered dict |
| `ArgKeys.NatToString` | webgrid/tests/test_types.py:49-50 | the decimal spelling of a position is non-empty, and one digit long exactly below 10 |
| `ArgKeys.KeyStringTag` | webgrid/tests/test_types.py:40-52 | every key spelling starts with the two characters of its kind |
| `ArgKeys.NatToStringInjective` | webgrid/tests/test_types.py:49-50 | distinct positions are spelt differently |
| `ArgKeys.KeyStringInjective` | webgrid/tests/test_types.py:40-52 | distinct argument keys are spelt differently |
| `ArgKeys.KeyStringInjectiveAll` | webgrid/tests/test_types.py:40-52 | the spelling is injective on all keys at once |
| `ArgKeys.RenderAt` | webgrid/tests/test_types.py:40-52 | the string-keyed dict has a key exactly when the structured map has the key it spells, with the same value |
| `FlaskApi.FileAsResponse` | webgrid/flask.py:91-95 | the file is sent as an attachment exactly when it has a name; name, data and MIME type pass through |
| `FlaskApi.ExportRequested` | webgrid/flask.py:139 | an export is requested when `export_to` is a non-empty string; `None` and the empty string are falsy |
| `FlaskApi.OnRenderLimitExceeded` | webgrid/flask.py:119-120 | the limit handler answers with the error JSON `too many records for render target` |
| `FlaskApi.ViewResponse` | webgrid/flask.py:130-142 | the handler aborts exactly for an unknown identifier (404) or a refused authorisation (its status); it renders the registered grid's JSON exactly when no export is requested, and the export exactly when one is requested and stays within the limit; the only error JSON is the render-limit one |
| `FlaskApi.OnRenderLimitExceededAsWritten` | webgrid/flask.py:119-120 | the limit handler as written raises `NameError` for `flask` |
| `FlaskApi.ExportResponseAsWritten` | webgrid/flask.py:122-128 | the export path as written raises exactly over the limit, with `AttributeError` on `on_render_limit_exceeded`, and otherwise returns the export |
| `FlaskApi.ViewAsWritten` | webgrid/flask.py:130-142 | the handler as written raises exactly for an unknown identifier or an export request, with `NameError` or `TypeError`; what it returns is an abort or the grid's JSON |
| `FlaskApi.ExportResponse` | webgrid/flask.py:119-128 | the export path returns the grid's export exactly when rendering stays within the limit, and otherwise the error JSON `too many records for render target` |
| `FlaskApi.Grid.constructor` | webgrid/flask.py:16-19 | a new grid sees the manager its class holds, has not checked authorisation and has no arguments loaded |
| `FlaskApi.Grid.CheckAuth` | webgrid/flask.py:135-136 | authorisation is checked only on a grid whose manager is the one serving the request; it records the check, returns the refusal if any, and changes nothing else |
| `FlaskApi.Grid.ApplyQsArgs` | webgrid/flask.py:137 | loading arguments sets `export_to` and leaves the manager and the authorisation check alone |
| `FlaskApi.WebGridAPI.constructor` | webgrid/flask.py:103-104 | the registry starts empty |
| `FlaskApi.WebGridAPI.Init` | webgrid/flask.py:103-104 | `init` empties the registry |
| `FlaskApi.WebGridAPI.RegisterGrid` | webgrid/flask.py:110-114 | a new identifier adds exactly that entry and changes nothing else; a present one fails with `API grid_ident must be unique` and leaves the registry unchanged |
| `FlaskApi.WebGridAPI.ApiInitGrid` | webgrid/flask.py:116-117 | builds a fresh grid of the registered class, carrying that class's manager |
| `FlaskApi.WebGridAPI.ApiExportResponse` | webgrid/flask.py:122-128 | answers with the export response for the grid's target, or the limit error |
| `FlaskApi.WebGridAPI.ApiViewMethod` | webgrid/flask.py:130-142 | an unknown identifier is a 404 before any grid is built; otherwise the grid is built from the registered class, this manager replaces the class's one, authorisation is checked, and only then are arguments applied; a refused authorisation answers with its status and never loads arguments; a set `export_to` takes the export path, otherwise the grid's JSON |
| `FlaskApi.ViewAsWrittenVersusIntended` | webgrid/flask.py:130-142 | the handler as written raises exactly for an unknown identifier (`NameError`) and on the export path (`TypeError`), and returns the intended response everywhere else |
| `FlaskApi.ExportAsWrittenVersusIntended` | webgrid/flask.py:119-128 | the export path as written agrees with the intended one exactly when the export stays within the limit, and raises otherwise; the limit handler as written raises |
| `FlaskApi.UnknownIdentRaisesNameError` | webgrid/flask.py:131-132 | posting to an unregistered `foo` raises `NameError` where 404 is intended |
| `FlaskApi.ExportRequestRaisesTypeError` | webgrid/flask.py:139-140 | a JSON export request raises `TypeError` where the export is intended |
| `FlaskApi.RenderLimitRaisesAttributeError` | webgrid/flask.py:125-128 | an export over the limit raises `AttributeError` where the error JSON is intended |
| `Testing.AssertListEqual` | webgrid/testing.py:14-47 | succeeds exactly on equal lists; lengths are compared first and a mismatch reports both lengths; equal-length lists that differ report the smallest differing index with both elements, equal before it |
| `Testing.LongestRow` | webgrid/testing.py:81 | the longest row length bounds every row and is attained by one |
| `Testing.ExpectedRowCount` | webgrid/testing.py:73-75 | the expected row count is the number of data rows, plus one exactly when there are headers |
| `Testing.ExpectedColumnCount` | webgrid/testing.py:79-83 | the expected column count is the least width covering the headers and every row |
| `Testing.SheetShape` | webgrid/testing.py:72-83 | the expected row count is the number of rows of the sheet with its header row, and the expected column count is that sheet's widest row |
| `Testing.CheckFilterArgs` | webgrid/testing.py:148-154 | the arguments are `op(name)=op` followed by one `v1(name)` per list element in order, or by a single `v1(name)` for any other value |
| `Testing.PageArgs` | webgrid/testing.py:166 | the paged request starts with `onpage=2` and `perpage=1`, in that order |
| `Testing.CheckFilter` | webgrid/testing.py:148-175 | a paging grid class is first requested with `onpage=2`, `perpage=1` ahead of the filter arguments; the last request carries the filter arguments alone |
| `Testing.CheckSort` | webgrid/testing.py:185-192 | the sent value is the `to_args` encoding of the sort entry in the requested direction; the expected text is `ORDER BY ` then `ex`, ending there ascending and followed by ` DESC` descending |
| `Testing.CheckSortArgs` | webgrid/testing.py:186-188 | the arguments sent are exactly `sort1`, carrying the sent value |
| `Testing.CheckSortAgreesWithToArgs` | webgrid/testing.py:185-188 | the one argument `check_sort` sends is `sort1`, carrying what `to_args` writes for a one-entry sort list in the same direction |
| `Testing.CheckSortDirection` | webgrid/testing.py:185-188 | for a key not starting with `-`, the sent value starts with `-` exactly for a descending sort, followed by the key |
| `Testing.CheckSortExpected` | webgrid/testing.py:190-192 | the expected text is `ORDER BY ex` ascending, and that text followed by ` DESC` descending |

## Left out

- Flask glue in `webgrid/flask.py` is not modelled: request, session, flash, `url_for`, `Blueprint`, jinja configuration, `send_file`, `init_app`, `setup_route` and the database helpers. `FileAsResponse` returns the arguments `send_file` would get.
- What a grid does in `check_auth`, `apply_qs_args`, `export_as_response` and `json` is not modelled. The query builder, the renderers and the render-limit check are not part of this model either. `ApiRequest` supplies their outcome: the abort status, the `export_to` the arguments set, and whether the export stays within the limit.
- FlaskApi.Grid: a grid's manager is any object, as a class attribute may hold a `WebGrid` or a `WebGridAPI`; the manager's own behaviour is not modelled.
- CSRF protection and the WebTest harness of `webgrid/tests/test_api.py` are not modelled.
- The `GridSettings` implementation is not part of this model. For inputs the tests do not exercise, `FromDict` assumes these rules:
  - an entry with an unknown key, a missing required key (`op`, `value1`, `key`, `flag_desc`) or a wrongly typed value makes decoding fail (`None`);
  - unknown top-level keys are ignored;
  - `value1` may be `None`.
- Settings.ToArgsFixedKeys: that `search`, `onpage`, `perpage` and `export_to` are written as `None` when unset is an assumption. The tests only show `export_to` written as `None`.
- Settings.ToArgsFilterKeys: that `v2(c)` is written for every set `value2`, the empty string included, is an assumption. The tests only show a non-empty `value2` written and a `None` one left out.
- Settings.ToArgs: a `value1` holding a list (several values for one filter) is not modelled; filter values are a str or `None`.
- Settings.ToArgs: the decoder of the argument form (the reverse of `to_args`) is not part of this model, so that round trip is not stated.
- Settings.SortArg: a key that itself starts with `-` is encoded like the same key descending (`SortArgAmbiguousForDashKeys`). The encoding is injective only for other keys.
- Testing.AssertListEqual: the failure messages are returned as structured values (both lengths; index and both elements), not as formatted text with `repr`. Generators are taken as already converted to lists.
- Testing.CheckFilter: only the query-argument lists are modelled. `urlencode`, the request contexts, the query-string and regex assertions on the compiled SQL, and the `page_count > 1` render check are not; neither is the `expected` parameter. Lists and tuples are both `Value.List`, and `name` is a string.
- Testing.CheckSort: the query assertion and the render check are not modelled, only the sent argument and the expected text.
- `assert_rendered_xls_matches`: xlrd workbook parsing and the per-row comparisons against the sheet are not modelled, only the expected shape. `test_filters`, `test_sort`, `get_session_grid`, the PyQuery helpers, `query_to_str` and the MSSQL regex rewriting are not modelled either; they depend on SQLAlchemy, PyQuery and Python `re`.
- Types.MetaFromDict: `Meta.sort` and the settings' filter dict are Python dicts, which keep insertion order; a Dafny `map` has no order. Dataclass and dict equality ignore that order, so no stated behaviour depends on it.
- Types.MetaFromDict: iterables other than list, dict and str (tuples, generators) and values outside the JSON-like universe (floats, objects) are not modelled.
- `webgrid_blazeweb_ta/tests/grids.py` and `noxfile.py` are not part of this model.

## Findings

| source | as written | input that shows it | evidently intended | confidence | as-written member | corrected member |
|---|---|---|---|---|---|---|
| webgrid/flask.py:131-132 | `flask.abort(404)` is called, but only names from `flask` are imported, not `flask` itself, so it raises `NameError` | a request for an unregistered identifier `foo` | answer 404 | not executed | `FlaskApi.UnknownIdentRaisesNameError` | `FlaskApi.WebGridAPI.ApiViewMethod` |
| webgrid/flask.py:139-140 | `self.api_export_response()` is called without the grid it requires, so it raises `TypeError` | a registered grid whose arguments set `export_to` to `json` | answer with the grid's export response | not executed | `FlaskApi.ExportRequestRaisesTypeError` | `FlaskApi.WebGridAPI.ApiViewMethod` |
| webgrid/flask.py:125-128 | on a render-limit failure it calls `self.on_render_limit_exceeded`, which is not defined in `webgrid/flask.py` (the handler defined there is `api_on_render_limit_exceeded`; the base class `FrameworkManager` is not part of this model), so it raises `AttributeError` | an export whose rendering exceeds the record limit | answer with the error JSON `too many records for render target` | not executed | `FlaskApi.RenderLimitRaisesAttributeError` | `FlaskApi.ExportResponse` |
| webgrid/flask.py:119-120 | the limit handler calls `flask.jsonify`, and `flask` is not imported, so even the right handler raises `NameError` | any call of `api_on_render_limit_exceeded` | answer with the error JSON | not executed | `FlaskApi.ExportAsWrittenVersusIntended` | `FlaskApi.ExportResponse` |
