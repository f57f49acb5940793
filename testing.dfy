// The helpers of webgrid/testing.py that do not depend on a database, a
// spreadsheet reader or an HTML parser: the list comparison behind every
// row assertion, the expected shape of a rendered sheet, and the query
// arguments `check_filter` and `check_sort` send to a grid.

module Testing {
  import opened PyValues
  import opened ArgKeys
  import Settings

  // ---------------------------------------------------------------------
  // assert_list_equal

  /** How `assert_list_equal` ends: it returns, or its assertion fails with one of two messages. */
  datatype ListComparison<T> =
    | ListsEqual
    | DifferentLengths(len1: nat, len2: nat)
    | FirstDifference(index: nat, val1: T, val2: T)

  /**
   * `assert_list_equal(list1, list2)`: the lengths are compared first; lists of
   * equal length that differ are walked pairwise until the first mismatch.
   */
  method AssertListEqual<T(==)>(list1: seq<T>, list2: seq<T>) returns (r: ListComparison<T>)
    ensures r.ListsEqual? <==> list1 == list2
    ensures r.DifferentLengths? <==> |list1| != |list2|
    ensures r.DifferentLengths? ==> r.len1 == |list1| && r.len2 == |list2|
    ensures r.FirstDifference? ==>
      && |list1| == |list2|
      && r.index < |list1|
      && list1[..r.index] == list2[..r.index]
      && r.val1 == list1[r.index] != list2[r.index] == r.val2
  {
    if |list1| != |list2| {
      return DifferentLengths(|list1|, |list2|);
    }
    if list1 == list2 {
      return ListsEqual;
    }
    // The lists differ somewhere, so the walk below stops inside them.
    ghost var j :| 0 <= j < |list1| && list1[j] != list2[j];
    var index := 0;
    while list1[index] == list2[index]
      invariant 0 <= index <= j
      invariant list1[..index] == list2[..index]
      decreases j - index
    {
      assert list1[..index + 1] == list1[..index] + [list1[index]];
      assert list2[..index + 1] == list2[..index] + [list2[index]];
      index := index + 1;
    }
    return FirstDifference(index, list1[index], list2[index]);
  }

  // ---------------------------------------------------------------------
  // The sheet shape expected by assert_rendered_xls_matches

  /** The longest row, `max(len(values) for values in xls_rows)`, defined for a non-empty list. */
  function LongestRow<T>(rows: seq<seq<T>>): (r: nat)
    requires |rows| > 0
    ensures forall i :: 0 <= i < |rows| ==> |rows[i]| <= r
    ensures exists i :: 0 <= i < |rows| && |rows[i]| == r
  {
    if |rows| == 1 then |rows[0]|
    else
      var rest := LongestRow(rows[1..]);
      assert forall i :: 1 <= i < |rows| ==> rows[i] == rows[1..][i - 1];
      if |rows[0]| >= rest then |rows[0]| else rest
  }

  /** The expected `sheet.nrows`: one row per data row, and one for the headers when there are any. */
  function ExpectedRowCount<T>(headers: seq<T>, rows: seq<seq<T>>): (r: nat)
    ensures |rows| <= r <= |rows| + 1
    ensures r == |rows| + 1 <==> |headers| > 0
  {
    |rows| + (if |headers| > 0 then 1 else 0)
  }

  /** The expected `sheet.ncols`: the wider of the headers and the longest row, each 0 when absent. */
  function ExpectedColumnCount<T>(headers: seq<T>, rows: seq<seq<T>>): (r: nat)
    ensures |headers| <= r
    ensures forall i :: 0 <= i < |rows| ==> |rows[i]| <= r
    ensures r == |headers| || exists i :: 0 <= i < |rows| && |rows[i]| == r
  {
    var headerWidth := if |headers| > 0 then |headers| else 0;
    var rowWidth := if |rows| > 0 then LongestRow(rows) else 0;
    if headerWidth >= rowWidth then headerWidth else rowWidth
  }

  /** The sheet a renderer writes: the header row, when there is one, then the data rows. */
  function Sheet<T>(headers: seq<T>, rows: seq<seq<T>>): seq<seq<T>>
  {
    (if |headers| > 0 then [headers] else []) + rows
  }

  /** The shape the helper expects is the shape of that sheet: its row count and its widest row. */
  lemma SheetShape<T>(headers: seq<T>, rows: seq<seq<T>>)
    ensures |Sheet(headers, rows)| == ExpectedRowCount(headers, rows)
    ensures forall i :: 0 <= i < |Sheet(headers, rows)| ==>
      |Sheet(headers, rows)[i]| <= ExpectedColumnCount(headers, rows)
    ensures ExpectedColumnCount(headers, rows) == 0 ||
      exists i :: 0 <= i < |Sheet(headers, rows)| && |Sheet(headers, rows)[i]| == ExpectedColumnCount(headers, rows)
  {
    var sheet, width := Sheet(headers, rows), ExpectedColumnCount(headers, rows);
    var offset := if |headers| > 0 then 1 else 0;
    assert forall i :: 0 <= i < |rows| ==> sheet[i + offset] == rows[i];
    if width != 0 {
      if width == |headers| {
        assert sheet[0] == headers;
      } else {
        var i :| 0 <= i < |rows| && |rows[i]| == width;
        assert sheet[i + offset] == rows[i];
      }
    }
  }

  // ---------------------------------------------------------------------
  // check_filter

  /** A query-string argument: a key and the value `urlencode` is given for it. */
  type QueryArg = (string, Value)

  /** The arguments `check_filter` builds for column `name`: the operator, then the value or values. */
  predicate IsFilterArgs(name: string, op: Value, value: Value, qsArgs: seq<QueryArg>)
  {
    && |qsArgs| >= 1
    && qsArgs[0] == (KeyString(Op(name)), op)
    && (value.List? ==>
          && |qsArgs| == 1 + |value.items|
          && forall i :: 0 <= i < |value.items| ==> qsArgs[i + 1] == (KeyString(V1(name)), value.items[i]))
    && (!value.List? ==> qsArgs == [(KeyString(Op(name)), op), (KeyString(V1(name)), value)])
  }

  /** The `qs_args` list built at the top of `check_filter`; a list or tuple gives one `v1` entry per element. */
  method CheckFilterArgs(name: string, op: Value, value: Value) returns (qsArgs: seq<QueryArg>)
    ensures IsFilterArgs(name, op, value, qsArgs)
  {
    qsArgs := [(KeyString(Op(name)), op)];
    if value.List? {
      var i := 0;
      while i < |value.items|
        invariant 0 <= i <= |value.items|
        invariant |qsArgs| == 1 + i
        invariant qsArgs[0] == (KeyString(Op(name)), op)
        invariant forall j :: 0 <= j < i ==> qsArgs[j + 1] == (KeyString(V1(name)), value.items[j])
      {
        qsArgs := qsArgs + [(KeyString(V1(name)), value.items[i])];
        i := i + 1;
      }
    } else {
      qsArgs := qsArgs + [(KeyString(V1(name)), value)];
    }
  }

  /** The paging arguments `page_func` puts ahead of the filter arguments. */
  function PageArgs(): (r: seq<QueryArg>)
    ensures r == [("onpage", Int(2)), ("perpage", Int(1))]
  {
    [(KeyString(OnPage), Int(2)), (KeyString(PerPage), Int(1))]
  }

  /**
   * The query strings `check_filter` requests, in order: the paged request of
   * `page_func` when the grid class pages, then the request of `sub_func`.
   */
  method CheckFilter(name: string, op: Value, value: Value, pagerOn: bool) returns (requests: seq<seq<QueryArg>>)
    ensures |requests| == if pagerOn then 2 else 1
    ensures IsFilterArgs(name, op, value, requests[|requests| - 1])
    ensures pagerOn ==> requests[0] == PageArgs() + requests[1]
  {
    var qsArgs := CheckFilterArgs(name, op, value);
    requests := [];
    if pagerOn {
      requests := requests + [PageArgs() + qsArgs];
    }
    requests := requests + [qsArgs];
  }

  // ---------------------------------------------------------------------
  // check_sort

  /** What `check_sort` sends (`sort1`) and the text it expects in the query. */
  datatype SortCheck = SortCheck(sortValue: string, expected: string)

  function OrderByPrefix(): string
  {
    "ORDER BY "
  }

  function DescSuffix(): string
  {
    " DESC"
  }

  /** `check_sort(k, ex, asc)`: the sort key is prefixed with `-` for a descending sort. */
  function CheckSort(k: string, ex: string, asc: bool): (r: SortCheck)
    ensures r.sortValue == Settings.SortArg(Settings.Sort(k, !asc))
    ensures |r.expected| >= 9 + |ex| && r.expected[..9] == "ORDER BY " && r.expected[9..9 + |ex|] == ex
    ensures asc ==> |r.expected| == 9 + |ex|
    ensures !asc ==> r.expected[9 + |ex|..] == " DESC"
  {
    var sortValue := if asc then k else "-" + k;
    SortCheck(sortValue, OrderByPrefix() + ex + (if asc then "" else DescSuffix()))
  }

  /** The single argument `check_sort` sends is `sort1`, spelt as `to_args` spells the first sort entry. */
  function CheckSortArgs(k: string, ex: string, asc: bool): (r: map<string, string>)
    ensures r.Keys == {"sort1"} && r["sort1"] == CheckSort(k, ex, asc).sortValue
  {
    assert KeyString(SortAt(1)) == "sort1";
    map[KeyString(SortAt(1)) := CheckSort(k, ex, asc).sortValue]
  }

  /** The sort value is the encoding `to_args` gives a one-entry sort list, so both sides agree on direction. */
  lemma CheckSortAgreesWithToArgs(k: string, ex: string, asc: bool, s: Settings.GridSettings)
    requires s.sort == [Settings.Sort(k, !asc)]
    ensures "sort1" in CheckSortArgs(k, ex, asc)
    ensures SortAt(1) in Settings.ToArgs(s)
    ensures Settings.ToArgs(s)[SortAt(1)] == Str(CheckSortArgs(k, ex, asc)["sort1"])
    ensures SortAt(2) !in Settings.ToArgs(s)
  {
    assert KeyString(SortAt(1)) == "sort1";
    Settings.ToArgsSortKeys(s, 1);
    Settings.ToArgsSortKeys(s, 2);
  }

  /** For a key not starting with `-`, the sent value starts with `-` exactly for a descending sort. */
  lemma CheckSortDirection(k: string, ex: string, asc: bool)
    requires |k| == 0 || k[0] != '-'
    ensures var v := CheckSort(k, ex, asc).sortValue;
      (|v| > 0 && v[0] == '-') <==> !asc
    ensures var v := CheckSort(k, ex, asc).sortValue;
      !asc ==> v[1..] == k
  {
    Settings.SortArgPrefix(Settings.Sort(k, !asc));
  }

  /**
   * The expected text is `ORDER BY ex`, followed by ` DESC` exactly in the
   * descending case: the descending text is the ascending one plus the suffix.
   */
  lemma CheckSortExpected(k: string, ex: string)
    ensures CheckSort(k, ex, true).expected == OrderByPrefix() + ex
    ensures CheckSort(k, ex, false).expected == CheckSort(k, ex, true).expected + DescSuffix()
    ensures var e := CheckSort(k, ex, false).expected;
      |e| >= 5 && e[|e| - 5..] == " DESC"
  {
    assert OrderByPrefix() + ex + "" == OrderByPrefix() + ex;
  }
}
